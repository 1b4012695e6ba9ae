/** The byte relays: the loop that reads a file into a channel, the loop that forwards the
    frames of an HTTP body into another channel, and both at work side by side. */
module Relay {
  import opened Common

  /** A frame of data, or the error that ends a body. */
  datatype Unit = Data(bytes: Bytes) | Fault

  /** The size of the read buffer. */
  const READ: nat := 4096

  /** The bytes of the data frames, in order. */
  function Payload(units: seq<Unit>): Bytes {
    if units == [] then []
    else Payload(units[..|units| - 1]) + (if units[|units| - 1].Data? then units[|units| - 1].bytes else [])
  }

  /** The sending half of a channel: what was sent so far, and whether the receiver is gone. */
  class Sender {
    var sent: seq<Unit>
    var closed: bool

    constructor ()
      ensures sent == [] && !closed
    {
      sent, closed := [], false;
    }

    /** The receiver may be dropped at any time. */
    method Send(u: Unit) returns (ok: bool)
      modifies this
      ensures ok ==> !closed && !old(closed) && sent == old(sent) + [u]
      ensures !ok ==> closed && sent == old(sent)
    {
      if !closed { closed := *; }
      ok := !closed;
      if ok { sent := sent + [u]; }
    }
  }

  datatype ReadResult = ReadOk(bytes: Bytes) | ReadErr

  /** A file read from front to back; every read may be short, or fail. */
  class Reader {
    const content: Bytes
    var pos: nat
    var failed: bool

    ghost predicate Valid()
      reads this
    {
      pos <= |content|
    }

    constructor (content: Bytes)
      ensures Valid() && this.content == content && pos == 0 && !failed
    {
      this.content := content;
      pos, failed := 0, false;
    }

    /** Nothing is read only at the end of the file. */
    method Read(max: nat) returns (r: ReadResult)
      requires Valid() && max > 0
      modifies this
      ensures Valid()
      ensures r.ReadErr? ==> failed && pos == old(pos)
      ensures r.ReadOk? ==> failed == old(failed) && old(pos) <= pos <= old(pos) + max
      ensures r.ReadOk? ==> r.bytes == content[old(pos)..pos] && (r.bytes == [] <==> old(pos) == |content|)
    {
      var fails: bool := *;
      if fails {
        failed := true;
        return ReadErr;
      }
      var left := |content| - pos;
      var n := if left <= max then left else max;
      if n > 0 { n :| 0 < n <= left && n <= max; }
      r := ReadOk(content[pos..pos + n]);
      pos := pos + n;
    }
  }

  lemma PayloadSnoc(units: seq<Unit>, u: Unit)
    ensures Payload(units + [u]) == Payload(units) + if u.Data? then u.bytes else []
  {
    assert (units + [u])[..|units|] == units;
  }

  lemma FrontLonger(content: Bytes, a: nat, b: nat)
    requires a <= b <= |content|
    ensures content[..a] + content[a..b] == content[..b]
    ensures content[..b] <= content
  {
  }

  /** The read loop. What it sends is a front part of the file in frames of 1 to READ bytes,
      followed by the error if a read failed; without error and with the receiver alive it is
      the whole file. */
  method ForwardAsyncReadToSender(file: Reader, tx: Sender)
    requires file.Valid() && file.pos == 0 && !file.failed && tx.sent == [] && !tx.closed
    modifies file, tx
    ensures Payload(tx.sent) <= file.content
    ensures forall i :: 0 <= i < |tx.sent| && tx.sent[i].Data? ==> 0 < |tx.sent[i].bytes| <= 4096
    ensures forall i :: 0 <= i < |tx.sent| && tx.sent[i].Fault? ==> i == |tx.sent| - 1 && file.failed
    ensures !file.failed && !tx.closed ==> Payload(tx.sent) == file.content
    ensures file.failed && !tx.closed ==> tx.sent != [] && tx.sent[|tx.sent| - 1].Fault?
  {
    var going := true;
    while going
      invariant file.Valid() && WellFramed(tx.sent, file.failed) && Payload(tx.sent) <= file.content
      invariant going ==> !file.failed && !tx.closed && Payload(tx.sent) == file.content[..file.pos]
      invariant !going && !file.failed && !tx.closed ==> Payload(tx.sent) == file.content
      invariant !going && file.failed && !tx.closed ==> tx.sent != [] && tx.sent[|tx.sent| - 1].Fault?
      decreases going, |file.content| - file.pos
    {
      ghost var before, from := tx.sent, file.pos;
      var r := file.Read(READ);
      match r
      case ReadOk(bytes) =>
        if |bytes| == 0 {
          going := false;
        } else {
          MoreFramed(before, Data(bytes), false);
          PayloadSnoc(before, Data(bytes));
          FrontLonger(file.content, from, file.pos);
          var ok := tx.Send(Data(bytes));
          if !ok { going := false; }
        }
      case ReadErr =>
        MoreFramed(before, Fault, true);
        PayloadSnoc(before, Fault);
        var ok := tx.Send(Fault);
        going := false;
    }
  }

  /** Frames are neither empty nor longer than the buffer, and only the last may be an error. */
  predicate WellFramed(sent: seq<Unit>, failed: bool) {
    && (forall i :: 0 <= i < |sent| && sent[i].Data? ==> 0 < |sent[i].bytes| <= READ)
    && (forall i :: 0 <= i < |sent| && sent[i].Fault? ==> i == |sent| - 1 && failed)
  }

  lemma MoreFramed(sent: seq<Unit>, u: Unit, failed: bool)
    requires WellFramed(sent, false)
    requires if u.Data? then 0 < |u.bytes| <= READ else failed
    ensures WellFramed(sent + [u], failed) && WellFramed(sent, failed)
  {
  }

  /** The forwarding loop: an error frame is passed on like any other, and only a receiver
      that is gone ends the loop early. */
  method ForwardBodyToSender(body: seq<Unit>, sender: Sender)
    requires sender.sent == [] && !sender.closed
    modifies sender
    ensures sender.sent <= body
    ensures !sender.closed ==> sender.sent == body
  {
    var i := 0;
    while i < |body|
      invariant i <= |body| && sender.sent == body[..i] && !sender.closed
    {
      var ok := sender.Send(body[i]);
      if !ok { return; }
      i := i + 1;
    }
  }

  // ---------- Both loops side by side ----------

  /** The buffers of the two channels. */
  const FIRST: nat := 1
  const SECOND: nat := 8

  /** The file goes into `first`, from there as bytes over the connection, is cut into frames
      anew, held by the forwarding loop and put into `second`. A send is complete only when
      the channel holds no more than its buffer, so that one more frame may be in it. */
  datatype Pipe = Pipe(
    content: Bytes,
    pos: nat,
    first: seq<Bytes>,
    wire: Bytes,
    hand: Option<Bytes>,
    second: seq<Bytes>,
    delivered: Bytes,
    readDone: bool,
    failed: bool,
    relayDone: bool,
    dropped: bool)

  datatype Move =
    | ReadChunk(n: nat)
    | EndOfFile
    | ReadFails
    | Ship                 // the connection takes a frame
    | Cut(n: nat)          // the forwarding loop gets a frame
    | Forward
    | EndOfBody
    | Deliver
    | DropReceiver         // the browser goes away

  predicate Possible(p: Pipe, m: Move) {
    match m
    case ReadChunk(n) => !p.readDone && 0 < n <= READ && p.pos + n <= |p.content| && |p.first| <= FIRST
    case EndOfFile => !p.readDone && p.pos == |p.content| && |p.first| <= FIRST
    case ReadFails => !p.readDone && |p.first| <= FIRST
    case Ship => p.first != []
    case Cut(n) => !p.relayDone && p.hand.None? && 0 < n <= |p.wire| && |p.second| <= SECOND
    case Forward => !p.relayDone && p.hand.Some? && |p.second| <= SECOND
    case EndOfBody =>
      !p.relayDone && p.readDone && p.first == [] && p.wire == [] && p.hand.None? && |p.second| <= SECOND
    case Deliver => p.second != [] && !p.dropped
    case DropReceiver => !p.dropped
  }

  function Step(p: Pipe, m: Move): Pipe
    requires Possible(p, m)
  {
    match m
    case ReadChunk(n) => p.(first := p.first + [p.content[p.pos..p.pos + n]], pos := p.pos + n)
    case EndOfFile => p.(readDone := true)
    case ReadFails => p.(readDone := true, failed := true)
    case Ship => p.(wire := p.wire + p.first[0], first := p.first[1..])
    case Cut(n) => p.(hand := Some(p.wire[..n]), wire := p.wire[n..])
    case Forward =>
      if p.dropped then p.(hand := None, relayDone := true)
      else p.(hand := None, second := p.second + [p.hand.value])
    case EndOfBody => p.(relayDone := true)
    case Deliver => p.(delivered := p.delivered + p.second[0], second := p.second[1..])
    case DropReceiver => p.(dropped := true, second := [])
  }

  function Concat(frames: seq<Bytes>): Bytes {
    if frames == [] then [] else frames[0] + Concat(frames[1..])
  }

  function Held(p: Pipe): Bytes { if p.hand.Some? then p.hand.value else [] }

  /** What has been read and has not reached the browser yet, in order. */
  function InFlight(p: Pipe): Bytes {
    Concat(p.second) + Held(p) + p.wire + Concat(p.first)
  }

  predicate Inv(p: Pipe) {
    && p.pos <= |p.content|
    && |p.first| <= FIRST + 1
    && |p.second| <= SECOND + 1
    && p.delivered <= p.content
    && (!p.dropped ==> p.delivered + InFlight(p) == p.content[..p.pos])
    && (p.readDone && !p.failed ==> p.pos == |p.content|)
    && (p.relayDone && !p.dropped ==> p.readDone && p.first == [] && p.wire == [] && p.hand.None?)
    && (p.dropped ==> p.second == [])
  }

  lemma {:induction false} ConcatSnoc(frames: seq<Bytes>, last: Bytes)
    ensures Concat(frames + [last]) == Concat(frames) + last
  {
    if frames == [] {
      assert Concat([last]) == last + Concat([]);
    } else {
      assert (frames + [last])[1..] == frames[1..] + [last];
      ConcatSnoc(frames[1..], last);
    }
  }

  /** One move takes bytes from the file or passes them on; it keeps their order. */
  lemma Balance(p: Pipe, m: Move)
    requires Inv(p) && Possible(p, m) && !p.dropped && !m.DropReceiver?
    ensures Step(p, m).pos <= |p.content|
    ensures Step(p, m).delivered + InFlight(Step(p, m)) == p.content[..Step(p, m).pos]
  {
    match m
    case ReadChunk(n) => ReadBalance(p, n);
    case Forward => ConcatSnoc(p.second, p.hand.value);
    case Deliver => DeliverBalance(p);
    case Cut(n) => CutBalance(p, n);
    case Ship => ShipBalance(p);
    case _ =>
  }

  lemma ReadBalance(p: Pipe, n: nat)
    requires Inv(p) && Possible(p, ReadChunk(n)) && !p.dropped
    ensures p.delivered + InFlight(Step(p, ReadChunk(n))) == p.content[..p.pos + n]
  {
    var chunk := p.content[p.pos..p.pos + n];
    var ahead := Concat(p.second) + Held(p) + p.wire;
    ConcatSnoc(p.first, chunk);
    Associate(ahead, Concat(p.first), chunk);
    Associate(p.delivered, InFlight(p), chunk);
    FrontLonger(p.content, p.pos, p.pos + n);
  }

  lemma Associate(a: Bytes, b: Bytes, c: Bytes)
    ensures a + (b + c) == (a + b) + c
  {
  }

  lemma ShipBalance(p: Pipe)
    requires Possible(p, Ship)
    ensures InFlight(Step(p, Ship)) == InFlight(p)
  {
  }

  lemma CutBalance(p: Pipe, n: nat)
    requires Possible(p, Cut(n))
    ensures InFlight(Step(p, Cut(n))) == InFlight(p)
  {
    assert p.wire[..n] + p.wire[n..] == p.wire;
  }

  lemma DeliverBalance(p: Pipe)
    requires Possible(p, Deliver)
    ensures Step(p, Deliver).delivered + InFlight(Step(p, Deliver)) == p.delivered + InFlight(p)
  {
    assert Concat(p.second) == p.second[0] + Concat(p.second[1..]);
  }

  lemma StepKeepsInv(p: Pipe, m: Move)
    requires Inv(p) && Possible(p, m)
    ensures Inv(Step(p, m))
  {
    if !p.dropped && !m.DropReceiver? {
      Balance(p, m);
      var p' := Step(p, m);
      assert p'.delivered == (p'.delivered + InFlight(p'))[..|p'.delivered|];
    }
  }

  function NewPipe(content: Bytes): Pipe {
    Pipe(content, 0, [], [], None, [], [], false, false, false, false)
  }

  ghost predicate Run(r: seq<Pipe>, content: Bytes) {
    |r| > 0 && r[0] == NewPipe(content) && forall i :: 0 < i < |r| ==> StepAt(r, i)
  }

  ghost predicate StepAt(r: seq<Pipe>, i: int)
    requires 0 < i < |r|
  {
    Leads(r[i - 1], r[i])
  }

  ghost predicate Leads(p: Pipe, p': Pipe) { exists m :: Happens(p, m, p') }

  predicate Happens(p: Pipe, m: Move, p': Pipe) { Possible(p, m) && p' == Step(p, m) }

  /** Relay refinement: for every pattern of short reads, cuts and scheduling, the browser has
      received a front part of the file; what has been read is what was delivered plus what is
      in flight; a channel never holds more than its buffer plus one; and when both loops have
      ended without an error and the channel is drained, the whole file has arrived. */
  lemma {:induction false} Refinement(r: seq<Pipe>, content: Bytes, i: nat)
    requires Run(r, content) && i < |r|
    ensures Inv(r[i]) && r[i].content == content
    ensures r[i].delivered <= content
    ensures !r[i].dropped ==> r[i].delivered + InFlight(r[i]) == content[..r[i].pos]
    ensures |r[i].first| <= 2 && |r[i].second| <= 9
    ensures r[i].relayDone && r[i].second == [] && !r[i].dropped && !r[i].failed ==> r[i].delivered == content
  {
    if i == 0 {
    } else {
      Refinement(r, content, i - 1);
      assert StepAt(r, i);
      var m :| Happens(r[i - 1], m, r[i]);
      StepKeepsInv(r[i - 1], m);
    }
    CleanEnd(r[i]);
  }

  /** When both loops have ended without an error, nothing is in flight but the second channel. */
  lemma CleanEnd(p: Pipe)
    requires Inv(p)
    ensures p.relayDone && p.second == [] && !p.dropped && !p.failed ==> p.delivered == p.content
  {
    if p.relayDone && p.second == [] && !p.dropped && !p.failed {
      assert InFlight(p) == [];
      assert p.content[..|p.content|] == p.content;
    }
  }

  /** What is still to be done, every byte counted by how far it has to go. */
  function Left(p: Pipe): int {
    6 * (|p.content| - p.pos) + 4 * |Concat(p.first)| + |p.first| + 3 * |p.wire| +
    (if p.hand.Some? then 2 else 0) + |p.second| +
    (if p.readDone then 0 else 1) + (if p.relayDone then 0 else 1) + (if p.dropped then 0 else 1)
  }

  /** Every move leaves less to be done: the relays come to an end. */
  lemma MovesAdvance(p: Pipe, m: Move)
    requires Inv(p) && Possible(p, m)
    ensures Left(Step(p, m)) < Left(p)
  {
    match m
    case ReadChunk(n) => ConcatSnoc(p.first, p.content[p.pos..p.pos + n]);
    case _ =>
  }

  /** As long as the file has not arrived, some relay can move. */
  lemma SomethingMoves(p: Pipe)
    requires Inv(p) && !p.dropped && !p.failed && p.delivered != p.content
    ensures exists m: Move :: !m.ReadFails? && !m.DropReceiver? && Possible(p, m)
  {
    CleanEnd(p);
    var m: Move :=
      if p.second != [] then Deliver
      else if p.hand.Some? then Forward
      else if p.wire != [] then Cut(1)
      else if p.first != [] then Ship
      else if p.readDone then EndOfBody
      else if p.pos < |p.content| then ReadChunk(1)
      else EndOfFile;
    assert Possible(p, m);
  }

  /** Where no relay can move any more and nothing has failed, the whole file has arrived. */
  lemma AllArrives(r: seq<Pipe>, content: Bytes, i: nat)
    requires Run(r, content) && i < |r| && !r[i].dropped && !r[i].failed
    requires forall m: Move :: !m.ReadFails? && !m.DropReceiver? ==> !Possible(r[i], m)
    ensures r[i].delivered == content
  {
    Refinement(r, content, i);
    if r[i].delivered != content { SomethingMoves(r[i]); }
  }

  /** When the browser goes away, what was in its channel is gone, and the relay ends with the
      next frame it would forward. */
  lemma DropEndsRelay(r: seq<Pipe>, content: Bytes, i: nat)
    requires Run(r, content) && i < |r| && r[i].dropped
    ensures r[i].second == []
    ensures r[i].hand.Some? && !r[i].relayDone ==> Possible(r[i], Forward) && Step(r[i], Forward).relayDone
  {
    Refinement(r, content, i);
  }
}
