/** The compression worker of the browser and its local fallback: every request gets a tag and
    a promise, the worker's messages settle promises by tag, and when the worker is gone all
    pending promises are rejected and later requests are served locally. */
module Compress {
  import opened Common

  type Object = string

  /** The largest tag up to which the counter counts exactly. */
  const MAX_TAG: nat := 0x20_0000_0000_0000

  datatype Settlement = Resolved(data: Bytes) | Rejected

  /** `suspend` holds the pending promises by tag, `settled` is what promises have got. */
  datatype Table = Table(tag: nat, closed: bool, suspend: set<nat>, settled: map<nat, Settlement>)

  /** A message of the worker: the data, or None for an error. */
  datatype Message = Message(tag: nat, data: Option<Bytes>)

  function Requested(t: Table): Table {
    if t.closed then t else t.(tag := t.tag + 1, suspend := t.suspend + {t.tag})
  }

  function Messaged(t: Table, m: Message): Table {
    if m.tag in t.suspend then
      t.(suspend := t.suspend - {m.tag},
         settled := t.settled[m.tag := if m.data.Some? then Resolved(m.data.value) else Rejected])
    else t
  }

  function ClosedTable(t: Table): Table {
    t.(closed := true, suspend := {}, settled := t.settled + map x | x in t.suspend :: Rejected)
  }

  /** The module variables and the functions that change them. */
  class WorkerTable {
    var tag: nat
    var closed: bool
    var suspend: set<nat>
    var settled: map<nat, Settlement>

    function View(): Table
      reads this
    {
      Table(tag, closed, suspend, settled)
    }

    constructor ()
      ensures View() == Table(0, false, {}, map[])
    {
      tag, closed, suspend, settled := 0, false, {}, map[];
    }

    method Request() returns (r: Option<nat>)
      modifies this
      ensures View() == Requested(old(View()))
      ensures r == if old(closed) then None else Some(old(tag))
      ensures suspend == old(suspend) + (if old(closed) then {} else {old(tag)})
      ensures tag == old(tag) + (if old(closed) then 0 else 1) && closed == old(closed) && settled == old(settled)
    {
      if closed { return None; }
      var messageTag := tag;
      tag := tag + 1;
      suspend := suspend + {messageTag};
      r := Some(messageTag);
    }

    method OnMessage(m: Message)
      modifies this
      ensures View() == Messaged(old(View()), m)
      ensures suspend == old(suspend) - {m.tag} && closed == old(closed) && tag == old(tag)
      ensures m.tag !in old(suspend) ==> settled == old(settled)
      ensures m.tag in old(suspend) && m.data.Some? ==> settled == old(settled)[m.tag := Resolved(m.data.value)]
      ensures m.tag in old(suspend) && m.data.None? ==> settled == old(settled)[m.tag := Rejected]
    {
      if m.tag in suspend {
        suspend := suspend - {m.tag};
        settled := settled[m.tag := if m.data.Some? then Resolved(m.data.value) else Rejected];
      }
    }

    /** Every pending promise is rejected, one after another. */
    method OnClose()
      modifies this
      ensures View() == ClosedTable(old(View()))
      ensures closed && suspend == {} && tag == old(tag)
      ensures forall x :: x in old(suspend) ==> x in settled && settled[x] == Rejected
      ensures forall x :: x in old(settled) && x !in old(suspend) ==> x in settled && settled[x] == old(settled)[x]
    {
      closed := true;
      var todo := suspend;
      while todo != {}
        invariant todo <= suspend && closed && tag == old(tag) && suspend == old(suspend)
        invariant settled == old(settled) + map x | x in suspend - todo :: Rejected
        decreases todo
      {
        var x :| x in todo;
        settled := settled[x := Rejected];
        todo := todo - {x};
      }
      suspend := {};
    }
  }

  // ---------- Calls, worker and messages in any order ----------

  /** One call of `stringifyAndCompress`. */
  datatype Phase =
    | Waiting(tag: nat)
    | Falling                  // will compute locally
    | Returned(data: Bytes)
    | Thrown

  datatype Call = Call(obj: Object, phase: Phase)

  /** `posted` is what the worker has been sent, `objects` which object each tag stands for. */
  datatype State = State(
    table: Table,
    calls: map<nat, Call>,
    posted: seq<nat>,
    objects: map<nat, Object>,
    answers: seq<Message>)

  datatype Action =
    | Begin(k: nat, obj: Object, posts: bool)   // posting may throw
    | Answer(i: nat, fails: bool)               // the worker handles a message
    | OnMessage(m: nat)
    | OnClose
    | Settle(k: nat)
    | Local(k: nat)

  /** `local` is the local path: None when it throws. */
  ghost predicate Enabled(s: State, a: Action) {
    match a
    case Begin(k, _, _) => k !in s.calls && s.table.tag < MAX_TAG
    case Answer(i, _) => i < |s.posted| && s.posted[i] in s.objects
    case OnMessage(m) => m < |s.answers|
    case OnClose => !s.table.closed
    case Settle(k) => k in s.calls && s.calls[k].phase.Waiting? && s.calls[k].phase.tag in s.table.settled
    case Local(k) => k in s.calls && s.calls[k].phase.Falling?
  }

  function SetPhase(s: State, k: nat, p: Phase): State
    requires k in s.calls
  {
    s.(calls := s.calls[k := s.calls[k].(phase := p)])
  }

  function BeginStep(s: State, k: nat, obj: Object, posts: bool): State {
    var t := s.table.tag;
    if s.table.closed then s.(calls := s.calls[k := Call(obj, Falling)])
    else if !posts then
      s.(table := Requested(s.table), objects := s.objects[t := obj], calls := s.calls[k := Call(obj, Falling)])
    else
      s.(table := Requested(s.table), objects := s.objects[t := obj],
         calls := s.calls[k := Call(obj, Waiting(t))], posted := s.posted + [t])
  }

  ghost function Apply(s: State, a: Action, local: Object -> Option<Bytes>): State
    requires Enabled(s, a)
  {
    match a
    case Begin(k, obj, posts) => BeginStep(s, k, obj, posts)
    case Answer(i, fails) =>
      var t := s.posted[i];
      s.(answers := s.answers + [Message(t, if fails then None else local(s.objects[t]))])
    case OnMessage(m) => s.(table := Messaged(s.table, s.answers[m]))
    case OnClose => s.(table := ClosedTable(s.table))
    case Settle(k) =>
      SetPhase(s, k, match s.table.settled[s.calls[k].phase.tag]
                     case Resolved(data) => Returned(data)
                     case Rejected => Falling)
    case Local(k) =>
      SetPhase(s, k, match local(s.calls[k].obj) case Some(data) => Returned(data) case None => Thrown)
  }

  ghost predicate Run(r: seq<State>, local: Object -> Option<Bytes>) {
    && |r| > 0
    && r[0] == State(Table(0, false, {}, map[]), map[], [], map[], [])
    && forall i :: 0 < i < |r| ==> StepAt(r, i, local)
  }

  ghost predicate StepAt(r: seq<State>, i: int, local: Object -> Option<Bytes>)
    requires 0 < i < |r|
  {
    Leads(r[i - 1], r[i], local)
  }

  ghost predicate Leads(s: State, s': State, local: Object -> Option<Bytes>) {
    exists a :: Enabled(s, a) && s' == Apply(s, a, local)
  }

  ghost predicate CallOk(s: State, k: nat, local: Object -> Option<Bytes>)
    requires k in s.calls
  {
    var c := s.calls[k];
    match c.phase
    case Waiting(t) => t in s.objects && s.objects[t] == c.obj
    case Falling => true
    case Returned(data) => local(c.obj) == Some(data)
    case Thrown => local(c.obj) == None
  }

  ghost predicate Inv(s: State, local: Object -> Option<Bytes>) {
    && (forall k :: k in s.calls ==> CallOk(s, k, local))
    && (forall t :: t in s.objects ==> t < s.table.tag)
    && (forall t: nat :: t < s.table.tag ==> t in s.objects)
    && (forall m :: 0 <= m < |s.answers| ==>
          s.answers[m].tag in s.objects &&
          (s.answers[m].data.Some? ==> local(s.objects[s.answers[m].tag]) == s.answers[m].data))
    && (forall t :: t in s.table.settled ==>
          t in s.objects &&
          (s.table.settled[t].Resolved? ==> local(s.objects[t]) == Some(s.table.settled[t].data)))
    && (forall t: nat :: t < s.table.tag ==> (t in s.table.suspend <==> t !in s.table.settled))
    && (forall t :: t in s.table.suspend ==> t < s.table.tag)
    && (s.table.closed ==> s.table.suspend == {})
  }

  lemma BeginKeeps(s: State, k: nat, obj: Object, posts: bool, local: Object -> Option<Bytes>)
    requires Inv(s, local) && Enabled(s, Begin(k, obj, posts))
    ensures Inv(Apply(s, Begin(k, obj, posts), local), local)
  {
    var s' := Apply(s, Begin(k, obj, posts), local);
    forall x | x in s'.calls ensures CallOk(s', x, local) {
      if x in s.calls { assert CallOk(s, x, local); }
    }
  }

  lemma AnswerKeeps(s: State, i: nat, fails: bool, local: Object -> Option<Bytes>)
    requires Inv(s, local) && Enabled(s, Answer(i, fails))
    ensures Inv(Apply(s, Answer(i, fails), local), local)
  {
  }

  lemma OnMessageKeeps(s: State, m: nat, local: Object -> Option<Bytes>)
    requires Inv(s, local) && Enabled(s, OnMessage(m))
    ensures Inv(Apply(s, OnMessage(m), local), local)
  {
  }

  lemma OnCloseKeeps(s: State, local: Object -> Option<Bytes>)
    requires Inv(s, local) && Enabled(s, OnClose)
    ensures Inv(Apply(s, OnClose, local), local)
  {
  }

  lemma SettleKeeps(s: State, k: nat, local: Object -> Option<Bytes>)
    requires Inv(s, local) && Enabled(s, Settle(k))
    ensures Inv(Apply(s, Settle(k), local), local)
  {
  }

  lemma LocalKeeps(s: State, k: nat, local: Object -> Option<Bytes>)
    requires Inv(s, local) && Enabled(s, Local(k))
    ensures Inv(Apply(s, Local(k), local), local)
  {
  }

  lemma StepKeepsInv(s: State, a: Action, local: Object -> Option<Bytes>)
    requires Inv(s, local) && Enabled(s, a)
    ensures Inv(Apply(s, a, local), local)
  {
    match a
    case Begin(k, obj, posts) => BeginKeeps(s, k, obj, posts, local);
    case Answer(i, fails) => AnswerKeeps(s, i, fails, local);
    case OnMessage(m) => OnMessageKeeps(s, m, local);
    case OnClose => OnCloseKeeps(s, local);
    case Settle(k) => SettleKeeps(s, k, local);
    case Local(k) => LocalKeeps(s, k, local);
  }

  lemma {:induction false} RunInv(r: seq<State>, local: Object -> Option<Bytes>, i: nat)
    requires Run(r, local) && i < |r|
    ensures Inv(r[i], local)
  {
    if i == 0 {
    } else {
      RunInv(r, local, i - 1);
      assert StepAt(r, i, local);
      var a :| Enabled(r[i - 1], a) && r[i] == Apply(r[i - 1], a, local);
      StepKeepsInv(r[i - 1], a, local);
    }
  }

  /** The worker path refines the local path: whatever the worker does and whenever it goes
      away, a call that returns returns what the local path gives, and a call that throws does
      so because the local path does. */
  lemma WorkerRefinesLocal(r: seq<State>, local: Object -> Option<Bytes>, i: nat, k: nat)
    requires Run(r, local) && i < |r| && k in r[i].calls
    ensures r[i].calls[k].phase.Returned? ==> local(r[i].calls[k].obj) == Some(r[i].calls[k].phase.data)
    ensures r[i].calls[k].phase.Thrown? ==> local(r[i].calls[k].obj) == None
  {
    RunInv(r, local, i);
    assert CallOk(r[i], k, local);
  }

  /** Nothing stays pending: every promise is pending or settled, and after the close of the
      worker all of them are settled. */
  lemma CloseSettlesAll(r: seq<State>, local: Object -> Option<Bytes>, i: nat, t: nat)
    requires Run(r, local) && i < |r| && t < r[i].table.tag
    ensures (t in r[i].table.suspend) != (t in r[i].table.settled)
    ensures r[i].table.closed ==> t in r[i].table.settled
  {
    RunInv(r, local, i);
  }

  /** A promise settles at most once: what it has got it keeps. */
  lemma {:induction false} SettledOnce(r: seq<State>, local: Object -> Option<Bytes>, i: nat, j: nat, t: nat)
    requires Run(r, local) && i <= j < |r| && t in r[i].table.settled
    ensures t in r[j].table.settled && r[j].table.settled[t] == r[i].table.settled[t]
  {
    if i < j {
      SettledOnce(r, local, i, j - 1, t);
      RunInv(r, local, j - 1);
      assert StepAt(r, j, local);
      SettledKept(r[j - 1], r[j], local, t);
    }
  }

  lemma SettledKept(s: State, s': State, local: Object -> Option<Bytes>, t: nat)
    requires Inv(s, local) && Leads(s, s', local) && t in s.table.settled
    ensures t in s'.table.settled && s'.table.settled[t] == s.table.settled[t]
  {
  }

  /** A call goes to the worker if that is there and takes the message, and else is local. */
  lemma BeginsAtWorker(s: State, k: nat, obj: Object, posts: bool, local: Object -> Option<Bytes>)
    requires Enabled(s, Begin(k, obj, posts))
    ensures var s' := Apply(s, Begin(k, obj, posts), local);
            && k in s'.calls && s'.calls[k].obj == obj
            && (!s.table.closed && posts ==>
                  s'.calls[k].phase == Waiting(s.table.tag) && s'.posted == s.posted + [s.table.tag])
            && (s.table.closed || !posts ==> s'.calls[k].phase == Falling && s'.posted == s.posted)
  {
  }

  /** The worker answers a message with what the local path gives, or with an error; the answer
      settles the promise of its tag; and the call goes on by what its promise has got. */
  lemma AnswersDecide(s: State, i: nat, fails: bool, local: Object -> Option<Bytes>)
    requires Enabled(s, Answer(i, fails))
    ensures Apply(s, Answer(i, fails), local).answers ==
            s.answers + [Message(s.posted[i], if fails then None else local(s.objects[s.posted[i]]))]
  {
  }

  lemma MessagesDecide(s: State, m: nat, local: Object -> Option<Bytes>)
    requires Enabled(s, OnMessage(m)) && s.answers[m].tag in s.table.suspend
    ensures var settled := Apply(s, OnMessage(m), local).table.settled;
            s.answers[m].tag in settled &&
            settled[s.answers[m].tag] ==
              if s.answers[m].data.Some? then Resolved(s.answers[m].data.value) else Rejected
  {
  }

  lemma SettlementsDecide(s: State, k: nat, local: Object -> Option<Bytes>)
    requires Enabled(s, Settle(k))
    ensures var got := s.table.settled[s.calls[k].phase.tag];
            Apply(s, Settle(k), local).calls[k].phase == if got.Resolved? then Returned(got.data) else Falling
  {
  }

  /** How far a call has come. */
  function Stage(p: Phase): nat {
    match p
    case Waiting(_) => 0
    case Falling => 1
    case Returned(_) => 2
    case Thrown => 2
  }

  /** Every step of a call takes it forward, and no other step touches it. */
  lemma CallsAdvance(s: State, a: Action, local: Object -> Option<Bytes>, k: nat)
    requires Enabled(s, a) && k in s.calls
    ensures k in Apply(s, a, local).calls && Apply(s, a, local).calls[k].obj == s.calls[k].obj
    ensures if a == Settle(k) || a == Local(k) then Stage(Apply(s, a, local).calls[k].phase) > Stage(s.calls[k].phase)
            else Apply(s, a, local).calls[k] == s.calls[k]
  {
  }

  /** Nobody waits for a worker that is gone: after its close, a call that cannot go on is over. */
  lemma ClosedFinishes(r: seq<State>, local: Object -> Option<Bytes>, i: nat, k: nat)
    requires Run(r, local) && i < |r| && r[i].table.closed && k in r[i].calls
    requires !Enabled(r[i], Settle(k)) && !Enabled(r[i], Local(k))
    ensures r[i].calls[k].phase.Returned? || r[i].calls[k].phase.Thrown?
  {
    RunInv(r, local, i);
    assert CallOk(r[i], k, local);
    if r[i].calls[k].phase.Waiting? { CloseSettlesAll(r, local, i, r[i].calls[k].phase.tag); }
  }
}
