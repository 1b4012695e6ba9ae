/** The two pending-call tables of a signed-in peer: the requests sent to its client over
    the websocket, and the registrations of HTTP requests waiting for the client's PUT.

    A waiter is the sending half of a oneshot channel; `Ticket` names the channel by the
    call that created it. Dropping a sender resolves its receiver with an error. */
module WebsocketPeer {
  import opened Common

  type Json = string

  /** A oneshot channel of the handler of a browser request, or of a tunnel call. */
  datatype Ticket = Browser(h: nat) | Tunnel(k: nat)

  /** The JSON object {key: argument}. */
  datatype Request = Request(key: string, argument: Json)

  /** What the receiving half of a oneshot channel gets. */
  datatype Outcome<+T> = Answered(value: T) | Canceled

  /** The message {"id": id, "request": request}. */
  datatype Frame = Frame(id: nat, request: Request)

  datatype FeedError = UnknownId | NoRegisteredCallback(id: nat)

  /** The connection to a client. `wire` is what the client has been sent, `events` what went
      into the event channel, `outcomes` what the waiters have got so far. */
  datatype Conn = Conn(
    requestId: nat,
    open: bool,
    callbacks: map<nat, Ticket>,
    outcomes: map<Ticket, Outcome<Json>>,
    wire: seq<Frame>,
    events: seq<Json>)

  function NewConn(): Conn { Conn(0, true, map[], map[], [], []) }

  function NextId(id: nat): nat { (id + 1) % U64 }

  /** `map.insert` drops the waiter that it replaces. */
  function DropReplaced<T>(waiters: map<nat, Ticket>, id: nat, outcomes: map<Ticket, Outcome<T>>)
    : map<Ticket, Outcome<T>>
  {
    if id in waiters then outcomes[waiters[id] := Canceled] else outcomes
  }

  /** `map.clear` drops every waiter. */
  function DropAll<T>(waiters: map<nat, Ticket>, outcomes: map<Ticket, Outcome<T>>): (r: map<Ticket, Outcome<T>>)
  {
    outcomes + map t | t in waiters.Values :: Canceled
  }

  /** A request sent with the waiter `ticket`. `accepted` is the verdict of the websocket
      sink; a closed sink rejects every send. */
  function Sent(c: Conn, request: Request, ticket: Ticket, accepted: bool): Conn {
    var id := NextId(c.requestId);
    var outcomes := DropReplaced(c.callbacks, id, c.outcomes);
    if c.open && accepted then
      c.(requestId := id, callbacks := c.callbacks[id := ticket], outcomes := outcomes,
         wire := c.wire + [Frame(id, request)])
    else
      c.(requestId := id, callbacks := c.callbacks - {id}, outcomes := outcomes[ticket := Canceled])
  }

  /** A response fed back; the id is whatever JSON value the client sent. */
  function Fed(c: Conn, id: Option<nat>, response: Json): Conn {
    if id.Some? && id.value in c.callbacks then
      c.(callbacks := c.callbacks - {id.value},
         outcomes := c.outcomes[c.callbacks[id.value] := Answered(response)])
    else c
  }

  function Closed(c: Conn): Conn {
    c.(open := false, callbacks := map[], outcomes := DropAll(c.callbacks, c.outcomes))
  }

  /** `heard` says whether the receiver of the event channel is still there. */
  function Forwarded(c: Conn, event: Json, heard: bool): Conn {
    if c.open && heard then c.(events := c.events + [event]) else c
  }

  /** The connection object, whose methods update its fields in place. */
  class ClientWebsocket {
    var requestId: nat
    var open: bool
    var callbacks: map<nat, Ticket>
    var outcomes: map<Ticket, Outcome<Json>>
    var wire: seq<Frame>
    var events: seq<Json>

    function View(): Conn
      reads this
    {
      Conn(requestId, open, callbacks, outcomes, wire, events)
    }

    constructor ()
      ensures View() == NewConn()
    {
      requestId, open, callbacks, outcomes, wire, events := 0, true, map[], map[], [], [];
    }

    method SendRequest(request: Request, callback: Ticket, accepted: bool) returns (r: Result<(), string>)
      modifies this
      ensures View() == Sent(old(View()), request, callback, accepted)
      ensures r.Ok? <==> old(open) && accepted
      ensures requestId == (old(requestId) + 1) % 0x1_0000_0000_0000_0000
      ensures callbacks == if r.Ok? then old(callbacks)[requestId := callback] else old(callbacks) - {requestId}
      ensures wire == old(wire) + if r.Ok? then [Frame(requestId, request)] else []
      ensures r.Err? ==> callback in outcomes && outcomes[callback] == Canceled
      ensures open == old(open) && events == old(events)
    {
      requestId := (requestId + 1) % U64;
      var id := requestId;
      outcomes := DropReplaced(callbacks, id, outcomes);
      callbacks := callbacks[id := callback];
      if open && accepted {
        wire := wire + [Frame(id, request)];
        r := Ok(());
      } else {
        callbacks := callbacks - {id};
        outcomes := outcomes[callback := Canceled];
        r := Err("Websocket send message failed");
        assert old(callbacks)[id := callback] - {id} == old(callbacks) - {id};
      }
    }

    method FeedResponse(id: Option<nat>, response: Json) returns (r: Result<(), FeedError>)
      modifies this
      ensures View() == Fed(old(View()), id, response)
      ensures r == if id.None? then Err(UnknownId)
                   else if id.value in old(callbacks) then Ok(())
                   else Err(NoRegisteredCallback(id.value))
      ensures r.Ok? ==> callbacks == old(callbacks) - {id.value}
      ensures r.Ok? ==> outcomes == old(outcomes)[old(callbacks)[id.value] := Answered(response)]
      ensures r.Err? ==> callbacks == old(callbacks) && outcomes == old(outcomes)
      ensures open == old(open) && wire == old(wire) && events == old(events) && requestId == old(requestId)
    {
      if id.Some? {
        if id.value in callbacks {
          var callback := callbacks[id.value];
          callbacks := callbacks - {id.value};
          outcomes := outcomes[callback := Answered(response)];
          r := Ok(());
        } else {
          r := Err(NoRegisteredCallback(id.value));
        }
      } else {
        r := Err(UnknownId);
      }
    }

    method ForwardEvent(event: Json, heard: bool) returns (r: Result<(), string>)
      modifies this
      ensures View() == Forwarded(old(View()), event, heard)
      ensures r.Ok? <==> old(open) && heard
      ensures events == old(events) + if r.Ok? then [event] else []
      ensures open == old(open) && callbacks == old(callbacks) && outcomes == old(outcomes) && wire == old(wire)
    {
      if open && heard {
        events := events + [event];
        r := Ok(());
      } else {
        r := Err("EventChannelClosed");
      }
    }

    method Disconnect()
      modifies this
      ensures View() == Closed(old(View()))
      ensures !open && callbacks == map[] && wire == old(wire) && events == old(events)
      ensures forall id :: id in old(callbacks) ==>
                old(callbacks)[id] in outcomes && outcomes[old(callbacks)[id]] == Canceled
      ensures forall t :: t in old(outcomes) && t !in old(callbacks).Values ==>
                t in outcomes && outcomes[t] == old(outcomes)[t]
    {
      open := false;
      outcomes := DropAll(callbacks, outcomes);
      callbacks := map[];
    }
  }

  // ---------- Registrations of HTTP requests ----------

  /** The PUT request of a client, with the channel that leads back to it. */
  type Put = nat

  datatype Registry = Registry(requestId: nat, queue: map<nat, Ticket>, outcomes: map<Ticket, Outcome<Put>>)

  function NewRegistry(): Registry { Registry(0, map[], map[]) }

  /** The registration gets the counter's value before the increment as its id. */
  function Registered(r: Registry, callback: Ticket): Registry {
    Registry(NextId(r.requestId), r.queue[r.requestId := callback],
             DropReplaced(r.queue, r.requestId, r.outcomes))
  }

  function Unregistered(r: Registry, id: nat): Registry {
    r.(queue := r.queue - {id}, outcomes := DropReplaced(r.queue, id, r.outcomes))
  }

  function PutFed(r: Registry, id: nat, put: Put): Registry {
    if id in r.queue then
      r.(queue := r.queue - {id}, outcomes := r.outcomes[r.queue[id] := Answered(put)])
    else r
  }

  function Cleared(r: Registry): Registry {
    r.(queue := map[], outcomes := DropAll(r.queue, r.outcomes))
  }

  class ClientHttp {
    var requestId: nat
    var queue: map<nat, Ticket>
    var outcomes: map<Ticket, Outcome<Put>>

    function View(): Registry
      reads this
    {
      Registry(requestId, queue, outcomes)
    }

    constructor ()
      ensures View() == NewRegistry()
    {
      requestId, queue, outcomes := 0, map[], map[];
    }

    method Register(callback: Ticket) returns (id: nat)
      modifies this
      ensures View() == Registered(old(View()), callback)
      ensures id == old(requestId) && id in queue && queue[id] == callback
      ensures requestId == (old(requestId) + 1) % 0x1_0000_0000_0000_0000
      ensures queue == old(queue)[id := callback]
      ensures id !in old(queue) ==> outcomes == old(outcomes)
    {
      id := requestId;
      requestId := (requestId + 1) % U64;
      outcomes := DropReplaced(queue, id, outcomes);
      queue := queue[id := callback];
    }

    method CancelRegister(id: nat)
      modifies this
      ensures View() == Unregistered(old(View()), id)
      ensures queue == old(queue) - {id} && requestId == old(requestId)
      ensures outcomes == if id in old(queue) then old(outcomes)[old(queue)[id] := Canceled] else old(outcomes)
    {
      outcomes := DropReplaced(queue, id, outcomes);
      queue := queue - {id};
    }

    method Feed(id: nat, put: Put)
      modifies this
      ensures View() == PutFed(old(View()), id, put)
      ensures queue == old(queue) - {id} && requestId == old(requestId)
      ensures outcomes == if id in old(queue) then old(outcomes)[old(queue)[id] := Answered(put)] else old(outcomes)
    {
      assert id !in queue ==> queue - {id} == queue;
      if id in queue {
        var sender := queue[id];
        queue := queue - {id};
        outcomes := outcomes[sender := Answered(put)];
      }
    }

    method Disconnect()
      modifies this
      ensures View() == Cleared(old(View()))
      ensures queue == map[] && requestId == old(requestId)
      ensures forall id :: id in old(queue) ==> old(queue)[id] in outcomes && outcomes[old(queue)[id]] == Canceled
      ensures forall t :: t in old(outcomes) && t !in old(queue).Values ==>
                t in outcomes && outcomes[t] == old(outcomes)[t]
    {
      outcomes := DropAll(queue, outcomes);
      queue := map[];
    }
  }

  /** Both tables of one signed-in client. */
  class WebSocketPeer {
    const clientWebsocket: ClientWebsocket
    const clientHttp: ClientHttp

    constructor (connection: ClientWebsocket)
      ensures clientWebsocket == connection
      ensures fresh(clientHttp) && clientHttp.View() == NewRegistry()
    {
      clientWebsocket := connection;
      clientHttp := new ClientHttp();
    }

    method Disconnect()
      modifies clientWebsocket, clientHttp
      ensures clientWebsocket.View() == Closed(old(clientWebsocket.View()))
      ensures clientHttp.View() == Cleared(old(clientHttp.View()))
      ensures !clientWebsocket.open && clientWebsocket.callbacks == map[] && clientHttp.queue == map[]
    {
      clientWebsocket.Disconnect();
      clientHttp.Disconnect();
    }
  }

  // ---------- Runs of calls on one connection ----------

  datatype Call =
    | Send(request: Request, ticket: Ticket, accepted: bool)
    | Feed(id: Option<nat>, response: Json)
    | Forward(event: Json, heard: bool)
    | Disconnect

  function Do(c: Conn, call: Call): Conn {
    match call
    case Send(request, ticket, accepted) => Sent(c, request, ticket, accepted)
    case Feed(id, response) => Fed(c, id, response)
    case Forward(event, heard) => Forwarded(c, event, heard)
    case Disconnect => Closed(c)
  }

  /** The connection after the first `n` calls of a history. */
  function After(calls: seq<Call>, n: nat): Conn
    requires n <= |calls|
  {
    if n == 0 then NewConn() else Do(After(calls, n - 1), calls[n - 1])
  }

  /** How many of the first `n` calls are sends. */
  function Sends(calls: seq<Call>, n: nat): nat
    requires n <= |calls|
  {
    if n == 0 then 0 else Sends(calls, n - 1) + if calls[n - 1].Send? then 1 else 0
  }

  /** The number of the send at position `k` of a history, which is its id until the 64-bit
      counter wraps around. */
  function IdAt(calls: seq<Call>, k: nat): nat
    requires k < |calls|
  {
    Sends(calls, k + 1)
  }

  /** The id on the wire. */
  function WireId(calls: seq<Call>, k: nat): nat
    requires k < |calls|
  {
    IdAt(calls, k) % U64
  }

  ghost predicate DisconnectedBefore(calls: seq<Call>, n: nat)
    requires n <= |calls|
  {
    exists m :: 0 <= m < n && calls[m].Disconnect?
  }

  /** The send at position `k` went out. */
  ghost predicate WentOut(calls: seq<Call>, k: nat)
    requires k < |calls|
  {
    calls[k].Send? && calls[k].accepted && !DisconnectedBefore(calls, k)
  }

  predicate Answers(call: Call, id: nat) { call.Feed? && call.id == Some(id) }

  /** The call at position `m` takes the waiter of the send at `k` out of the table: by a
      response, a disconnect, or a send that the wrapped counter gives the same id. */
  predicate Ends(calls: seq<Call>, k: nat, m: nat)
    requires k < |calls| && m < |calls|
  {
    || Answers(calls[m], WireId(calls, k))
    || calls[m].Disconnect?
    || (calls[m].Send? && WireId(calls, m) == WireId(calls, k))
  }

  /** The send at position `k` went out, and none of the calls up to `n` has ended it. */
  ghost predicate PendingSend(calls: seq<Call>, k: nat, n: nat)
    requires n <= |calls|
  {
    && k < n
    && WentOut(calls, k)
    && forall m :: k < m < n ==> !Ends(calls, k, m)
  }

  /** Every send has its own waiter: each call creates a fresh oneshot channel. */
  ghost predicate FreshTickets(calls: seq<Call>) {
    forall j, k | 0 <= j < k < |calls| :: calls[j].Send? && calls[k].Send? ==> calls[j].ticket != calls[k].ticket
  }

  lemma NextIdOfMod(a: nat)
    ensures NextId(a % U64) == (a + 1) % U64
  {
  }

  lemma {:induction false} RequestIdCounts(calls: seq<Call>, n: nat)
    requires n <= |calls|
    ensures After(calls, n).requestId == Sends(calls, n) % U64
    ensures n < |calls| && calls[n].Send? ==> NextId(After(calls, n).requestId) == WireId(calls, n)
  {
    NextIdOfMod(Sends(calls, n));
    if n == 0 {
    } else {
      RequestIdCounts(calls, n - 1);
    }
  }

  lemma {:induction false} OpenUntilDisconnect(calls: seq<Call>, n: nat)
    requires n <= |calls|
    ensures After(calls, n).open <==> !DisconnectedBefore(calls, n)
  {
    if n == 0 {
    } else {
      OpenUntilDisconnect(calls, n - 1);
    }
  }

  lemma {:induction false} SendsMonotone(calls: seq<Call>, j: nat, k: nat)
    requires j <= k <= |calls|
    ensures Sends(calls, j) <= Sends(calls, k)
  {
    if j < k { SendsMonotone(calls, j, k - 1); }
  }

  /** Different sends have different numbers. */
  lemma IdsDiffer(calls: seq<Call>, j: nat, k: nat)
    requires j < k < |calls| && calls[j].Send? && calls[k].Send?
    ensures 0 < IdAt(calls, j) < IdAt(calls, k) <= Sends(calls, |calls|)
  {
    SendsMonotone(calls, j + 1, k);
    SendsMonotone(calls, k + 1, |calls|);
  }

  lemma {:induction false} NthSend(calls: seq<Call>, n: nat, upTo: nat) returns (k: nat)
    requires upTo <= |calls| && 0 < n <= Sends(calls, upTo)
    ensures k < |calls| && calls[k].Send? && IdAt(calls, k) == n
  {
    k := upTo - 1;
    if Sends(calls, k) >= n { k := NthSend(calls, n, k); }
  }

  ghost predicate IdsDistinct(calls: seq<Call>) {
    forall j, k | 0 <= j < k < |calls| :: calls[j].Send? && calls[k].Send? ==> WireId(calls, j) != WireId(calls, k)
  }

  lemma ModDiffers(a: nat, b: nat, m: nat)
    requires 0 < a < b <= m
    ensures a % m != b % m
  {
  }

  lemma SameAfterWrap(a: nat, b: nat)
    requires a == 1 && b == U64 + 1
    ensures a < b && a % U64 == b % U64
  {
  }

  /** Ids are never reused, exactly as long as the 64-bit counter has not wrapped around. */
  lemma IdsDistinctUntilWrap(calls: seq<Call>)
    ensures IdsDistinct(calls) <==> Sends(calls, |calls|) <= 0x1_0000_0000_0000_0000
  {
    if Sends(calls, |calls|) <= U64 {
      forall j, k | 0 <= j < k < |calls| && calls[j].Send? && calls[k].Send?
        ensures WireId(calls, j) != WireId(calls, k)
      {
        IdsDiffer(calls, j, k);
        ModDiffers(IdAt(calls, j), IdAt(calls, k), U64);
      }
    } else {
      WrapRepeats(calls);
    }
  }

  lemma WrapRepeats(calls: seq<Call>)
    requires Sends(calls, |calls|) > U64
    ensures !IdsDistinct(calls)
  {
    var j := NthSend(calls, 1, |calls|);
    var k := NthSend(calls, U64 + 1, |calls|);
    SameAfterWrap(IdAt(calls, j), IdAt(calls, k));
    if k < j { SendsMonotone(calls, k + 1, j + 1); }
    assert WireId(calls, j) == WireId(calls, k);
  }

  /** The callback map's entry for `id` belongs to the one pending send with that id. */
  ghost predicate TableExact(calls: seq<Call>, n: nat)
    requires n <= |calls|
  {
    var c := After(calls, n);
    && (forall id :: id in c.callbacks ==> Owned(calls, n, id, c.callbacks[id]))
    && (forall k: nat :: PendingSend(calls, k, n) ==> InTable(calls, n, k))
  }

  ghost predicate Owned(calls: seq<Call>, n: nat, id: nat, ticket: Ticket)
    requires n <= |calls|
  {
    exists k: nat :: PendingSend(calls, k, n) && WireId(calls, k) == id && calls[k].ticket == ticket
  }

  ghost predicate InTable(calls: seq<Call>, n: nat, k: nat)
    requires k < n <= |calls| && calls[k].Send?
  {
    var callbacks := After(calls, n).callbacks;
    WireId(calls, k) in callbacks && callbacks[WireId(calls, k)] == calls[k].ticket
  }

  /** Pending-call conservation: after any history the keys of the callback map are exactly the
      ids sent and not yet answered, failed, disconnected or, after 2^64 sends, reused. */
  lemma {:induction false} Conservation(calls: seq<Call>, n: nat)
    requires n <= |calls|
    ensures TableExact(calls, n)
  {
    if n == 0 {
    } else {
      Conservation(calls, n - 1);
      forall k: nat | PendingSend(calls, k, n) ensures InTable(calls, n, k) { PendingStep(calls, n, k); }
      forall id | id in After(calls, n).callbacks
        ensures Owned(calls, n, id, After(calls, n).callbacks[id])
      {
        EntryStep(calls, n, id);
      }
    }
  }

  lemma PendingStep(calls: seq<Call>, n: nat, k: nat)
    requires 0 < n <= |calls| && TableExact(calls, n - 1) && PendingSend(calls, k, n)
    ensures InTable(calls, n, k)
  {
    RequestIdCounts(calls, n - 1);
    OpenUntilDisconnect(calls, n - 1);
    if k < n - 1 {
      assert PendingSend(calls, k, n - 1);
      assert !Ends(calls, k, n - 1);
    }
  }

  lemma EntryStep(calls: seq<Call>, n: nat, id: nat)
    requires 0 < n <= |calls| && TableExact(calls, n - 1) && id in After(calls, n).callbacks
    ensures Owned(calls, n, id, After(calls, n).callbacks[id])
  {
    var c, last := After(calls, n - 1), calls[n - 1];
    assert After(calls, n) == Do(c, last);
    RequestIdCounts(calls, n - 1);
    OpenUntilDisconnect(calls, n - 1);
    OldOrNew(c, last, id);
    if last.Send? && id == NextId(c.requestId) {
      assert PendingSend(calls, n - 1, n);
    } else {
      assert Owned(calls, n - 1, id, c.callbacks[id]);
      var k: nat :| PendingSend(calls, k, n - 1) && WireId(calls, k) == id && calls[k].ticket == c.callbacks[id];
      assert !Ends(calls, k, n - 1);
      assert PendingSend(calls, k, n);
    }
  }

  lemma OldOrNew(c: Conn, call: Call, id: nat)
    requires id in Do(c, call).callbacks
    ensures if call.Send? && id == NextId(c.requestId)
            then c.open && call.accepted && Do(c, call).callbacks[id] == call.ticket
            else id in c.callbacks && c.callbacks[id] == Do(c, call).callbacks[id] &&
                 !Answers(call, id) && !call.Disconnect?
  {
  }

  /** The call at `m` is the first response after the send at `k` with the id of that send. */
  ghost predicate FirstAnswer(calls: seq<Call>, k: nat, m: nat)
    requires k < m < |calls|
  {
    && Answers(calls[m], WireId(calls, k))
    && forall j | k < j < m :: !Answers(calls[j], WireId(calls, k))
  }

  /** A waiter that was answered got the first response fed back under the id of its own send. */
  ghost predicate AnsweredByOwnId(calls: seq<Call>, k: nat, n: nat, v: Json)
    requires k < n <= |calls|
  {
    exists m :: k < m < n && FirstAnswer(calls, k, m) && calls[m].response == v
  }

  /** The fate of the send at position `k`: its waiter is still unresolved exactly while the
      send is pending, and an answer it got was fed back under its own id. */
  ghost predicate WaiterOk(calls: seq<Call>, k: nat, n: nat)
    requires k < n <= |calls| && calls[k].Send?
  {
    var outcomes := After(calls, n).outcomes;
    && (calls[k].ticket in outcomes <==> !PendingSend(calls, k, n))
    && (calls[k].ticket in outcomes && outcomes[calls[k].ticket].Answered? ==>
          AnsweredByOwnId(calls, k, n, outcomes[calls[k].ticket].value))
  }

  /** Every waiter is resolved exactly when its send stops being pending. */
  lemma {:induction false} Waiters(calls: seq<Call>, k: nat, n: nat)
    requires k < n <= |calls| && FreshTickets(calls) && calls[k].Send?
    ensures WaiterOk(calls, k, n)
  {
    if k == n - 1 {
      NewWaiter(calls, k);
    } else {
      Waiters(calls, k, n - 1);
      WaiterStep(calls, k, n);
    }
  }

  lemma NewWaiter(calls: seq<Call>, k: nat)
    requires k < |calls| && FreshTickets(calls) && calls[k].Send?
    ensures WaiterOk(calls, k, k + 1)
  {
    OpenUntilDisconnect(calls, k);
    Unknown(calls, k, calls[k].ticket);
  }

  lemma WaiterStep(calls: seq<Call>, k: nat, n: nat)
    requires k + 1 < n <= |calls| && FreshTickets(calls)
    requires calls[k].Send? && WaiterOk(calls, k, n - 1)
    ensures WaiterOk(calls, k, n)
  {
    assert AnswersKept(calls, k, n);
    Conservation(calls, n - 1);
    assert Ends(calls, k, n - 1) || (PendingSend(calls, k, n - 1) ==> PendingSend(calls, k, n));
    match calls[n - 1]
    case Send(_, _, _) => SendStep(calls, k, n);
    case Feed(_, _) => FeedStep(calls, k, n);
    case Disconnect => DisconnectStep(calls, k, n);
    case Forward(_, _) =>
  }

  lemma SendStep(calls: seq<Call>, k: nat, n: nat)
    requires k + 1 < n <= |calls| && FreshTickets(calls)
    requires calls[k].Send? && WaiterOk(calls, k, n - 1) && calls[n - 1].Send?
    requires TableExact(calls, n - 1) && AnswersKept(calls, k, n)
    ensures WaiterOk(calls, k, n)
  {
    var c := After(calls, n - 1);
    RequestIdCounts(calls, n - 1);
    OneWaiter(calls, k, n - 1);
    if WireId(calls, n - 1) in c.callbacks { EntryOwner(calls, k, n - 1, WireId(calls, n - 1)); }
    PendingEnds(calls, k, n);
    SentOutcomes(c, calls[n - 1], calls[k].ticket);
    if PendingSend(calls, k, n - 1) { assert InTable(calls, n - 1, k); }
  }

  /** A send resolves the waiter that it replaces, and its own if it fails. */
  lemma SentOutcomes(c: Conn, call: Call, ticket: Ticket)
    requires call.Send? && call.ticket != ticket
    ensures var id, outcomes := NextId(c.requestId), Do(c, call).outcomes;
            if id in c.callbacks && c.callbacks[id] == ticket
            then ticket in outcomes && outcomes[ticket] == Canceled
            else (ticket in outcomes <==> ticket in c.outcomes) &&
                 (ticket in outcomes ==> outcomes[ticket] == c.outcomes[ticket])
  {
  }

  lemma FeedStep(calls: seq<Call>, k: nat, n: nat)
    requires k + 1 < n <= |calls| && FreshTickets(calls)
    requires calls[k].Send? && WaiterOk(calls, k, n - 1) && calls[n - 1].Feed?
    requires TableExact(calls, n - 1) && AnswersKept(calls, k, n)
    ensures WaiterOk(calls, k, n)
  {
    var c, id := After(calls, n - 1), calls[n - 1].id;
    assert After(calls, n) == Fed(c, id, calls[n - 1].response);
    PendingEnds(calls, k, n);
    if id.Some? && id.value in c.callbacks {
      EntryOwner(calls, k, n - 1, id.value);
      if c.callbacks[id.value] == calls[k].ticket { OwnAnswer(calls, k, n); }
    }
  }

  lemma OwnAnswer(calls: seq<Call>, k: nat, n: nat)
    requires k + 1 < n <= |calls| && PendingSend(calls, k, n - 1) && Answers(calls[n - 1], WireId(calls, k))
    ensures AnsweredByOwnId(calls, k, n, calls[n - 1].response)
  {
    forall j | k < j < n - 1 ensures !Answers(calls[j], WireId(calls, k)) { assert !Ends(calls, k, j); }
    assert FirstAnswer(calls, k, n - 1);
  }

  lemma DisconnectStep(calls: seq<Call>, k: nat, n: nat)
    requires k + 1 < n <= |calls| && calls[k].Send? && WaiterOk(calls, k, n - 1) && calls[n - 1].Disconnect?
    requires TableExact(calls, n - 1) && AnswersKept(calls, k, n)
    ensures WaiterOk(calls, k, n)
  {
    PendingEnds(calls, k, n);
    if PendingSend(calls, k, n - 1) { assert InTable(calls, n - 1, k); }
  }

  /** A send stays pending from one call to the next unless that call ends it. */
  lemma PendingEnds(calls: seq<Call>, k: nat, n: nat)
    requires k + 1 < n <= |calls|
    ensures PendingSend(calls, k, n) <==> PendingSend(calls, k, n - 1) && !Ends(calls, k, n - 1)
  {
  }

  ghost predicate AnswersKept(calls: seq<Call>, k: nat, n: nat)
    requires k + 1 < n <= |calls|
  {
    forall v :: AnsweredByOwnId(calls, k, n - 1, v) ==> AnsweredByOwnId(calls, k, n, v)
  }

  /** The table's entry for an id is the waiter of send `k` exactly if `k` is pending with it. */
  lemma EntryOwner(calls: seq<Call>, k: nat, n: nat, id: nat)
    requires k < n < |calls| && FreshTickets(calls)
    requires calls[k].Send? && TableExact(calls, n) && id in After(calls, n).callbacks
    ensures After(calls, n).callbacks[id] == calls[k].ticket <==> PendingSend(calls, k, n) && WireId(calls, k) == id
  {
    assert Owned(calls, n, id, After(calls, n).callbacks[id]);
    var ticket := After(calls, n).callbacks[id];
    var j: nat :| PendingSend(calls, j, n) && WireId(calls, j) == id && calls[j].ticket == ticket;
    OneWaiter(calls, j, k);
    if PendingSend(calls, k, n) { assert InTable(calls, n, k); }
  }

  lemma OneWaiter(calls: seq<Call>, j: nat, k: nat)
    requires FreshTickets(calls) && j < |calls| && k < |calls| && calls[j].Send? && calls[k].Send?
    ensures calls[j].ticket == calls[k].ticket ==> j == k
  {
  }

  /** A waiter that has not been sent yet is unknown to the connection. */
  lemma {:induction false} Unknown(calls: seq<Call>, n: nat, ticket: Ticket)
    requires n <= |calls|
    requires forall k | 0 <= k < n :: calls[k].Send? ==> calls[k].ticket != ticket
    ensures ticket !in After(calls, n).outcomes && ticket !in After(calls, n).callbacks.Values
  {
    if n == 0 {
    } else {
      Unknown(calls, n - 1, ticket);
    }
  }

  /** The call at `m` is the first one that ends the send at `k`. */
  ghost predicate FirstEnd(calls: seq<Call>, k: nat, m: nat)
    requires k < |calls| && m < |calls|
  {
    k < m && Ends(calls, k, m) && forall j | k < j < m :: !Ends(calls, k, j)
  }

  /** What the waiter of the send at `k` gets by the first `n` calls, if anything: its send has
      failed, or the first call that ends it decides. */
  ghost predicate FateOk(calls: seq<Call>, k: nat, n: nat)
    requires k < n <= |calls| && calls[k].Send?
  {
    var outcomes := After(calls, n).outcomes;
    calls[k].ticket in outcomes ==>
      if !WentOut(calls, k) then outcomes[calls[k].ticket] == Canceled
      else forall m | k < m < n && FirstEnd(calls, k, m) :: outcomes[calls[k].ticket] == Verdict(calls, k, m)
  }

  /** The response, if the call is one for the send's id, else an error. */
  function Verdict(calls: seq<Call>, k: nat, m: nat): Outcome<Json>
    requires k < |calls| && m < |calls|
  {
    if Answers(calls[m], WireId(calls, k)) then Answered(calls[m].response) else Canceled
  }

  /** Nobody is answered but by the first response with his id, and nobody so answered is let
      down: a waiter gets that response if it comes before a disconnect and before the id is
      reused, and else an error. */
  lemma {:induction false} Fates(calls: seq<Call>, k: nat, n: nat)
    requires k < n <= |calls| && FreshTickets(calls) && calls[k].Send?
    ensures WaiterOk(calls, k, n) && FateOk(calls, k, n)
  {
    Waiters(calls, k, n);
    if k == n - 1 {
      NewFate(calls, k);
    } else {
      Fates(calls, k, n - 1);
      Conservation(calls, n - 1);
      PendingEnds(calls, k, n);
      if calls[k].ticket in After(calls, n - 1).outcomes { OldFate(calls, k, n); } else { FateSealed(calls, k, n); }
    }
  }

  lemma NewFate(calls: seq<Call>, k: nat)
    requires k < |calls| && FreshTickets(calls) && calls[k].Send?
    ensures FateOk(calls, k, k + 1)
  {
    OpenUntilDisconnect(calls, k);
    Unknown(calls, k, calls[k].ticket);
  }

  /** A waiter once resolved keeps what it has got. */
  lemma OldFate(calls: seq<Call>, k: nat, n: nat)
    requires k + 1 < n <= |calls| && FreshTickets(calls) && calls[k].Send? && TableExact(calls, n - 1)
    requires WaiterOk(calls, k, n - 1) && FateOk(calls, k, n - 1) && calls[k].ticket in After(calls, n - 1).outcomes
    ensures FateOk(calls, k, n)
  {
    NotWaiting(calls, k, n - 1);
    OutcomeStays(After(calls, n - 1), calls[n - 1], calls[k].ticket);
    if calls[n - 1].Send? { OneWaiter(calls, k, n - 1); }
    if WentOut(calls, k) {
      var m :| k < m < n - 1 && Ends(calls, k, m);
      assert !FirstEnd(calls, k, n - 1);
    }
  }

  lemma NotWaiting(calls: seq<Call>, k: nat, n: nat)
    requires k < n < |calls| && FreshTickets(calls) && calls[k].Send? && TableExact(calls, n)
    requires !PendingSend(calls, k, n)
    ensures calls[k].ticket !in After(calls, n).callbacks.Values
  {
    forall id | id in After(calls, n).callbacks ensures After(calls, n).callbacks[id] != calls[k].ticket {
      EntryOwner(calls, k, n, id);
    }
  }

  lemma OutcomeStays(c: Conn, call: Call, ticket: Ticket)
    requires ticket !in c.callbacks.Values && ticket in c.outcomes
    requires call.Send? ==> call.ticket != ticket
    ensures ticket in Do(c, call).outcomes && Do(c, call).outcomes[ticket] == c.outcomes[ticket]
  {
  }

  /** The call that resolves a waiter is the first that ends its send, and decides. */
  lemma FateSealed(calls: seq<Call>, k: nat, n: nat)
    requires k + 1 < n <= |calls| && FreshTickets(calls) && calls[k].Send? && TableExact(calls, n - 1)
    requires WaiterOk(calls, k, n - 1) && WaiterOk(calls, k, n) && calls[k].ticket !in After(calls, n - 1).outcomes
    ensures FateOk(calls, k, n)
  {
    PendingEnds(calls, k, n);
    assert PendingSend(calls, k, n - 1);
    assert InTable(calls, n - 1, k);
    if calls[k].ticket in After(calls, n).outcomes {
      assert FirstEnd(calls, k, n - 1);
      Sealed(calls, k, n);
      forall m | k < m < n && FirstEnd(calls, k, m) ensures m == n - 1 { }
    }
  }

  lemma Sealed(calls: seq<Call>, k: nat, n: nat)
    requires k + 1 < n <= |calls| && FreshTickets(calls) && calls[k].Send?
    requires PendingSend(calls, k, n - 1) && InTable(calls, n - 1, k) && Ends(calls, k, n - 1)
    ensures calls[k].ticket in After(calls, n).outcomes
    ensures After(calls, n).outcomes[calls[k].ticket] == Verdict(calls, k, n - 1)
  {
    var c, call := After(calls, n - 1), calls[n - 1];
    assert After(calls, n) == Do(c, call);
    RequestIdCounts(calls, n - 1);
    if call.Send? {
      OneWaiter(calls, k, n - 1);
      SentOutcomes(c, call, calls[k].ticket);
    }
  }

  // ---------- What goes out ----------

  /** The frames of the sends that went out among the first `n` calls, in order. */
  ghost function Frames(calls: seq<Call>, n: nat): seq<Frame>
    requires n <= |calls|
  {
    if n == 0 then []
    else Frames(calls, n - 1) +
         (if WentOut(calls, n - 1) then [Frame(WireId(calls, n - 1), calls[n - 1].request)] else [])
  }

  /** The events that were heard before a disconnect among the first `n` calls, in order. */
  ghost function Heard(calls: seq<Call>, n: nat): seq<Json>
    requires n <= |calls|
  {
    if n == 0 then []
    else Heard(calls, n - 1) +
         (if calls[n - 1].Forward? && calls[n - 1].heard && !DisconnectedBefore(calls, n - 1)
          then [calls[n - 1].event] else [])
  }

  /** The client is sent exactly the requests whose sends went out, each under its own id, and
      the browser's event stream exactly the events that were heard; both in order. */
  lemma {:induction false} GoesOut(calls: seq<Call>, n: nat)
    requires n <= |calls|
    ensures After(calls, n).wire == Frames(calls, n) && After(calls, n).events == Heard(calls, n)
  {
    if n == 0 {
    } else {
      GoesOut(calls, n - 1);
      OpenUntilDisconnect(calls, n - 1);
      RequestIdCounts(calls, n - 1);
    }
  }

  /** After a disconnect nobody waits any more, whatever is called later: the callback map
      stays empty and every send's waiter is resolved. */
  lemma NobodyWaitsAfterDisconnect(calls: seq<Call>, d: nat)
    requires FreshTickets(calls) && d < |calls| && calls[d].Disconnect?
    ensures After(calls, |calls|).callbacks == map[]
    ensures forall k | 0 <= k < |calls| :: calls[k].Send? ==> calls[k].ticket in After(calls, |calls|).outcomes
  {
    forall k: nat ensures !PendingSend(calls, k, |calls|) { NotPending(calls, d, k); }
    Conservation(calls, |calls|);
    assert forall id, ticket :: !Owned(calls, |calls|, id, ticket);
    forall k | 0 <= k < |calls| && calls[k].Send? ensures calls[k].ticket in After(calls, |calls|).outcomes {
      Waiters(calls, k, |calls|);
    }
  }

  lemma NotPending(calls: seq<Call>, d: nat, k: nat)
    requires d < |calls| && calls[d].Disconnect?
    ensures !PendingSend(calls, k, |calls|)
  {
    if k < d { assert Ends(calls, k, d); }
  }
}
