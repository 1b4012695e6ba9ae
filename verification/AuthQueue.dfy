/** The per-user authentication queue of the sign-in handler, as a step relation over
    any number of concurrent sign-in attempts.

    Every attempt looks its user name up in a shared map of weak queue handles, sends a
    completion receiver through that queue, checks the password, and lets go of the
    completion sender when the check is over. Every queue has one worker, which takes
    one receiver at a time and waits until it resolves; a worker whose queue has no
    strong handle left sweeps the map entry of its name and ends. */
module AuthQueue {
  import opened Common

  type Name = string
  type TaskId = nat
  type QueueId = nat

  /** The sleep after a rejected password, in milliseconds. */
  const PENALTY: nat := 5000

  /** Where a sign-in attempt stands. The constructors with a field `q` are the ones in
      which the attempt owns a strong handle of queue `q`. */
  datatype Phase =
    | Connected                        // session open, queue not looked up yet
    | Queued(q: QueueId)               // waits for the mutex around the queue's sender
    | Locked(q: QueueId)               // owns that mutex, receiver not yet in the channel
    | Sending(q: QueueId)              // receiver is in the channel, flush pending
    | Checking(q: QueueId)             // password check running
    | Sleeping(q: QueueId, until: nat) // password rejected, penalty running
    | Passed(q: QueueId)               // password accepted, completion sent
    | Leaving                          // handle dropped, completion sender still alive
    | Done
  {
    predicate HasHandle() { !Connected? && !Leaving? && !Done? }

    predicate Holds(k: QueueId) { HasHandle() && q == k }

    /** Between the completed send and the end of the check, penalty included. */
    predicate InCheck() { Checking? || Sleeping? }

    /** The receiver has been put into the channel of queue `k`, if the handle is still there. */
    predicate SentTo(k: QueueId) {
      Leaving? || Done? || ((Sending? || InCheck() || Passed?) && q == k)
    }

    /** The completion sender has been used or dropped. */
    predicate Resolved() { Passed? || Done? }
  }

  datatype Task = Task(name: Name, phase: Phase)

  datatype Worker =
    | Idle                       // in `r.next()`
    | Awaiting(t: TaskId)        // waits for the receiver of attempt `t`
    | Draining                   // the loop has ended, the map lock is still to be taken
    | Peeking(other: QueueId)    // owns the map lock and a temporary handle of `other`
    | Gone                       // finished, the channel's receiver is dropped
  {
    predicate InLoop() { Idle? || Awaiting? }
  }

  /** `slot` is the channel's content and `sender` the owner of the mutex around its
      sender: `mpsc::channel(0)` with one sender holds at most one item. */
  datatype Queue = Queue(name: Name, slot: Option<TaskId>, sender: Option<TaskId>, worker: Worker)

  /** A rejected password: when, for whom, and by which attempt. */
  datatype Failure = Failure(name: Name, time: nat, attempt: TaskId)

  datatype State = State(
    now: nat,
    tasks: map<TaskId, Task>,
    queues: map<QueueId, Queue>,
    entries: map<Name, QueueId>,
    mapLock: Option<QueueId>,
    failures: seq<Failure>)

  /** `Weak::upgrade` succeeds exactly while a strong handle exists. */
  ghost predicate Live(s: State, k: QueueId) {
    || (exists t :: t in s.tasks && s.tasks[t].phase.Holds(k))
    || (exists w :: w in s.queues && s.queues[w].worker == Peeking(k))
  }

  datatype Verdict = Accept | Reject | Failed

  datatype Action =
    | Arrive(t: TaskId, name: Name)
    | Lookup(t: TaskId, k: QueueId)    // `k` is the identity a new queue would get
    | LockSender(t: TaskId)
    | Push(t: TaskId)
    | SendError(t: TaskId)             // the channel's receiver is dropped
    | Flushed(t: TaskId)
    | Answer(t: TaskId, verdict: Verdict)
    | Wake(t: TaskId)
    | DropCompletion(t: TaskId)
    | Finish(t: TaskId)
    | Take(k: QueueId)
    | Resume(k: QueueId)
    | Drain(k: QueueId)
    | Sweep(k: QueueId)
    | Unlock(k: QueueId)
    | Tick(d: nat)

  ghost predicate Enabled(s: State, a: Action) {
    match a
    case Arrive(t, _) => t !in s.tasks
    case Lookup(t, k) =>
      t in s.tasks && s.tasks[t].phase.Connected? && s.mapLock.None? && k !in s.queues
    case LockSender(t) =>
      t in s.tasks && s.tasks[t].phase.Queued? && s.tasks[t].phase.q in s.queues &&
      s.queues[s.tasks[t].phase.q].sender.None?
    case Push(t) =>
      t in s.tasks && s.tasks[t].phase.Locked? && s.tasks[t].phase.q in s.queues &&
      s.queues[s.tasks[t].phase.q].slot.None? && !s.queues[s.tasks[t].phase.q].worker.Gone?
    case SendError(t) =>
      t in s.tasks && (s.tasks[t].phase.Locked? || s.tasks[t].phase.Sending?) &&
      s.tasks[t].phase.q in s.queues && s.queues[s.tasks[t].phase.q].worker.Gone?
    case Flushed(t) =>
      t in s.tasks && s.tasks[t].phase.Sending? && s.tasks[t].phase.q in s.queues &&
      s.queues[s.tasks[t].phase.q].slot != Some(t)
    case Answer(t, _) => t in s.tasks && s.tasks[t].phase.Checking?
    case Wake(t) => t in s.tasks && s.tasks[t].phase.Sleeping? && s.tasks[t].phase.until <= s.now
    case DropCompletion(t) => t in s.tasks && s.tasks[t].phase.Leaving?
    case Finish(t) => t in s.tasks && s.tasks[t].phase.Passed?
    case Take(k) => k in s.queues && s.queues[k].worker.Idle? && s.queues[k].slot.Some?
    case Resume(k) =>
      k in s.queues && s.queues[k].worker.Awaiting? &&
      s.queues[k].worker.t in s.tasks && s.tasks[s.queues[k].worker.t].phase.Resolved()
    case Drain(k) =>
      k in s.queues && s.queues[k].worker.Idle? && s.queues[k].slot.None? && !Live(s, k)
    case Sweep(k) => k in s.queues && s.queues[k].worker.Draining? && s.mapLock.None?
    case Unlock(k) => k in s.queues && s.queues[k].worker.Peeking?
    case Tick(_) => true
  }

  function SetPhase(s: State, t: TaskId, p: Phase): State
    requires t in s.tasks
  {
    s.(tasks := s.tasks[t := s.tasks[t].(phase := p)])
  }

  function SetQueue(s: State, k: QueueId, q: Queue): State {
    s.(queues := s.queues[k := q])
  }

  /** The map's critical section of a sign-in: upgrade the entry, or install a new queue. */
  ghost function LookupStep(s: State, t: TaskId, k: QueueId): State
    requires t in s.tasks
  {
    var name := s.tasks[t].name;
    if name in s.entries && Live(s, s.entries[name]) then
      SetPhase(s, t, Queued(s.entries[name]))
    else
      SetPhase(s, t, Queued(k)).(
        queues := s.queues[k := Queue(name, None, None, Idle)],
        entries := s.entries[name := k])
  }

  /** The worker's critical section: remove the entry of its name if it is dead. When the
      entry is alive, the upgraded handle lives until the lock is released. */
  ghost function SweepStep(s: State, k: QueueId): State
    requires k in s.queues
  {
    var q := s.queues[k];
    if q.name !in s.entries then
      SetQueue(s, k, q.(worker := Gone))
    else if Live(s, s.entries[q.name]) then
      SetQueue(s, k, q.(worker := Peeking(s.entries[q.name]))).(mapLock := Some(k))
    else
      SetQueue(s, k, q.(worker := Gone)).(entries := s.entries - {q.name})
  }

  ghost function Apply(s: State, a: Action): State
    requires Enabled(s, a)
  {
    match a
    case Arrive(t, name) => s.(tasks := s.tasks[t := Task(name, Connected)])
    case Lookup(t, k) => LookupStep(s, t, k)
    case LockSender(t) =>
      var k := s.tasks[t].phase.q;
      SetPhase(SetQueue(s, k, s.queues[k].(sender := Some(t))), t, Locked(k))
    case Push(t) =>
      var k := s.tasks[t].phase.q;
      SetPhase(SetQueue(s, k, s.queues[k].(slot := Some(t))), t, Sending(k))
    case SendError(t) =>
      var k := s.tasks[t].phase.q;
      SetPhase(SetQueue(s, k, s.queues[k].(sender := None)), t, Checking(k))
    case Flushed(t) =>
      var k := s.tasks[t].phase.q;
      SetPhase(SetQueue(s, k, s.queues[k].(sender := None)), t, Checking(k))
    case Answer(t, verdict) =>
      var k := s.tasks[t].phase.q;
      (match verdict
       case Accept => SetPhase(s, t, Passed(k))
       case Failed => SetPhase(s, t, Leaving)
       case Reject =>
         SetPhase(s, t, Sleeping(k, s.now + PENALTY)).(
           failures := s.failures + [Failure(s.tasks[t].name, s.now, t)]))
    case Wake(t) => SetPhase(s, t, Leaving)
    case DropCompletion(t) => SetPhase(s, t, Done)
    case Finish(t) => SetPhase(s, t, Done)
    case Take(k) =>
      SetQueue(s, k, s.queues[k].(slot := None, worker := Awaiting(s.queues[k].slot.value)))
    case Resume(k) => SetQueue(s, k, s.queues[k].(worker := Idle))
    case Drain(k) => SetQueue(s, k, s.queues[k].(worker := Draining))
    case Sweep(k) => SweepStep(s, k)
    case Unlock(k) => SetQueue(s, k, s.queues[k].(worker := Gone)).(mapLock := None)
    case Tick(d) => s.(now := s.now + d)
  }

  ghost predicate Initial(s: State) {
    s.tasks == map[] && s.queues == map[] && s.entries == map[] && s.mapLock.None? && s.failures == []
  }

  ghost predicate Next(s: State, s': State) {
    exists a :: Enabled(s, a) && s' == Apply(s, a)
  }

  ghost predicate StepAt(r: seq<State>, i: int)
    requires 0 < i < |r|
  {
    Next(r[i - 1], r[i])
  }

  /** A run of the server: any interleaving of the steps above. */
  ghost predicate Run(r: seq<State>) {
    && |r| > 0
    && Initial(r[0])
    && forall i :: 0 < i < |r| ==> StepAt(r, i)
  }

  // ---------- Invariant ----------

  /** What holds of one attempt. A handle belongs to the queue that the map has for the
      attempt's own name, with a worker still in its loop; mutex, channel and worker agree
      with the attempt's phase. */
  ghost predicate TaskOk(s: State, t: TaskId)
    requires t in s.tasks
  {
    var name, p := s.tasks[t].name, s.tasks[t].phase;
    p.HasHandle() ==>
      && p.q in s.queues && s.queues[p.q].name == name
      && name in s.entries && s.entries[name] == p.q
      && s.queues[p.q].worker.InLoop()
      && (p.Locked? || p.Sending? ==> s.queues[p.q].sender == Some(t))
      && (p.Sending? ==> (s.queues[p.q].slot == Some(t)) != (s.queues[p.q].worker == Awaiting(t)))
      && (p.InCheck() ==> s.queues[p.q].worker == Awaiting(t))
  }

  /** What holds of one queue. Only the owner of the map lock peeks, and only at the entry. */
  ghost predicate QueueOk(s: State, k: QueueId)
    requires k in s.queues
  {
    var q := s.queues[k];
    && (q.sender.Some? ==>
          && q.sender.value in s.tasks
          && (s.tasks[q.sender.value].phase == Locked(k) || s.tasks[q.sender.value].phase == Sending(k)))
    && (q.slot.Some? ==> q.slot.value in s.tasks && s.tasks[q.slot.value].phase == Sending(k))
    && (q.worker.Awaiting? ==> q.worker.t in s.tasks && s.tasks[q.worker.t].phase.SentTo(k))
    && (q.worker.Peeking? ==>
          var o := q.worker.other;
          && s.mapLock == Some(k)
          && o in s.queues && s.queues[o].worker.InLoop() && s.queues[o].name == q.name
          && q.name in s.entries && s.entries[q.name] == o)
  }

  /** What holds of one map entry: its worker has not finished. */
  ghost predicate EntryOk(s: State, n: Name)
    requires n in s.entries
  {
    && s.entries[n] in s.queues && s.queues[s.entries[n]].name == n
    && (s.queues[s.entries[n]].worker.InLoop() || s.queues[s.entries[n]].worker.Draining?)
  }

  /** A rejection younger than the penalty still has its attempt asleep. */
  ghost predicate FailureOk(s: State, f: Failure) {
    && f.time <= s.now
    && (s.now < f.time + PENALTY ==>
          f.attempt in s.tasks && s.tasks[f.attempt].name == f.name &&
          s.tasks[f.attempt].phase.Sleeping? && s.tasks[f.attempt].phase.until == f.time + PENALTY)
  }

  /** Rejections of one name, in the order they happened, lie a penalty apart. */
  ghost predicate Spaced(fs: seq<Failure>) {
    forall i, j :: 0 <= i < j < |fs| && fs[i].name == fs[j].name ==>
      fs[i].time + PENALTY <= fs[j].time
  }

  ghost predicate Inv(s: State) {
    && (forall t :: t in s.tasks ==> TaskOk(s, t))
    && (forall k :: k in s.queues ==> QueueOk(s, k))
    && (forall n :: n in s.entries ==> EntryOk(s, n))
    && (forall f :: f in s.failures ==> FailureOk(s, f))
    && (s.mapLock.Some? ==> s.mapLock.value in s.queues && s.queues[s.mapLock.value].worker.Peeking?)
    && Spaced(s.failures)
  }

  lemma ArriveKeeps(s: State, t: TaskId, name: Name)
    requires Inv(s) && Enabled(s, Arrive(t, name))
    ensures Inv(Apply(s, Arrive(t, name)))
  {
  }

  lemma LookupKeeps(s: State, t: TaskId, k: QueueId)
    requires Inv(s) && Enabled(s, Lookup(t, k))
    ensures Inv(Apply(s, Lookup(t, k)))
  {
    var s' := LookupStep(s, t, k);
    forall u | u in s'.tasks ensures TaskOk(s', u) { LookupTask(s, t, k, u); }
    forall w | w in s'.queues ensures QueueOk(s', w) { LookupQueue(s, t, k, w); }
    forall n | n in s'.entries ensures EntryOk(s', n) { if n in s.entries { assert EntryOk(s, n); } }
    forall f | f in s'.failures ensures FailureOk(s', f) { assert FailureOk(s, f); }
  }

  lemma LookupTask(s: State, t: TaskId, k: QueueId, u: TaskId)
    requires Inv(s) && Enabled(s, Lookup(t, k)) && u in s.tasks
    ensures TaskOk(LookupStep(s, t, k), u)
  {
    var name := s.tasks[t].name;
    assert TaskOk(s, u);
    if name in s.entries && Live(s, s.entries[name]) { LiveInLoop(s, s.entries[name]); assert EntryOk(s, name); }
  }

  lemma LookupQueue(s: State, t: TaskId, k: QueueId, w: QueueId)
    requires Inv(s) && Enabled(s, Lookup(t, k)) && w in LookupStep(s, t, k).queues
    ensures QueueOk(LookupStep(s, t, k), w)
  {
    if w in s.queues { assert QueueOk(s, w); }
  }

  lemma LockSenderKeeps(s: State, t: TaskId)
    requires Inv(s) && Enabled(s, LockSender(t))
    ensures Inv(Apply(s, LockSender(t)))
  {
    var s' := Apply(s, LockSender(t));
    forall u | u in s'.tasks ensures TaskOk(s', u) { if u in s.tasks { assert TaskOk(s, u); } }
    forall w | w in s'.queues ensures QueueOk(s', w) { if w in s.queues { assert QueueOk(s, w); } }
    forall n | n in s'.entries ensures EntryOk(s', n) { if n in s.entries { assert EntryOk(s, n); } }
    forall f | f in s'.failures ensures FailureOk(s', f) { if f in s.failures { assert FailureOk(s, f); } }
  }

  lemma PushKeeps(s: State, t: TaskId)
    requires Inv(s) && Enabled(s, Push(t))
    ensures Inv(Apply(s, Push(t)))
  {
    var s' := Apply(s, Push(t));
    forall u | u in s'.tasks ensures TaskOk(s', u) { if u in s.tasks { assert TaskOk(s, u); } }
    forall w | w in s'.queues ensures QueueOk(s', w) { if w in s.queues { assert QueueOk(s, w); } }
    forall n | n in s'.entries ensures EntryOk(s', n) { if n in s.entries { assert EntryOk(s, n); } }
    forall f | f in s'.failures ensures FailureOk(s', f) { if f in s.failures { assert FailureOk(s, f); } }
  }

  lemma FlushedKeeps(s: State, t: TaskId)
    requires Inv(s) && Enabled(s, Flushed(t))
    ensures Inv(Apply(s, Flushed(t)))
  {
    var s' := Apply(s, Flushed(t));
    forall u | u in s'.tasks ensures TaskOk(s', u) { if u in s.tasks { assert TaskOk(s, u); } }
    forall w | w in s'.queues ensures QueueOk(s', w) { if w in s.queues { assert QueueOk(s, w); } }
    forall n | n in s'.entries ensures EntryOk(s', n) { if n in s.entries { assert EntryOk(s, n); } }
    forall f | f in s'.failures ensures FailureOk(s', f) { if f in s.failures { assert FailureOk(s, f); } }
  }

  /** Two attempts of one user name are never in their check together. */
  lemma ChecksExclude(s: State, t: TaskId, u: TaskId)
    requires Inv(s) && t in s.tasks && u in s.tasks
    requires s.tasks[t].name == s.tasks[u].name
    requires s.tasks[t].phase.InCheck() && s.tasks[u].phase.InCheck()
    ensures t == u
  {
    assert TaskOk(s, t) && TaskOk(s, u);
  }

  lemma AnswerKeeps(s: State, t: TaskId, verdict: Verdict)
    requires Inv(s) && Enabled(s, Answer(t, verdict))
    ensures Inv(Apply(s, Answer(t, verdict)))
  {
    var s' := Apply(s, Answer(t, verdict));
    forall u | u in s'.tasks ensures TaskOk(s', u) { assert TaskOk(s, u); }
    forall w | w in s'.queues ensures QueueOk(s', w) { assert QueueOk(s, w); }
    forall n | n in s'.entries ensures EntryOk(s', n) { assert EntryOk(s, n); }
    forall f | f in s'.failures ensures FailureOk(s', f) { if f in s.failures { assert FailureOk(s, f); } }
    RejectSpaced(s, t);
  }

  /** A rejection now lies a penalty behind the earlier ones of its name. */
  lemma RejectSpaced(s: State, t: TaskId)
    requires Inv(s) && t in s.tasks && s.tasks[t].phase.Checking?
    ensures Spaced(s.failures + [Failure(s.tasks[t].name, s.now, t)])
  {
    forall i | 0 <= i < |s.failures| && s.failures[i].name == s.tasks[t].name
      ensures s.failures[i].time + PENALTY <= s.now
    {
      var f := s.failures[i];
      assert FailureOk(s, f);
      if s.now < f.time + PENALTY { ChecksExclude(s, t, f.attempt); }
    }
  }

  lemma WakeKeeps(s: State, t: TaskId)
    requires Inv(s) && Enabled(s, Wake(t))
    ensures Inv(Apply(s, Wake(t)))
  {
  }

  lemma DropCompletionKeeps(s: State, t: TaskId)
    requires Inv(s) && Enabled(s, DropCompletion(t))
    ensures Inv(Apply(s, DropCompletion(t)))
  {
  }

  lemma FinishKeeps(s: State, t: TaskId)
    requires Inv(s) && Enabled(s, Finish(t))
    ensures Inv(Apply(s, Finish(t)))
  {
  }

  lemma TakeKeeps(s: State, k: QueueId)
    requires Inv(s) && Enabled(s, Take(k))
    ensures Inv(Apply(s, Take(k)))
  {
  }

  lemma ResumeKeeps(s: State, k: QueueId)
    requires Inv(s) && Enabled(s, Resume(k))
    ensures Inv(Apply(s, Resume(k)))
  {
    var s' := Apply(s, Resume(k));
    forall u | u in s'.tasks ensures TaskOk(s', u) { if u in s.tasks { assert TaskOk(s, u); } }
    forall w | w in s'.queues ensures QueueOk(s', w) { if w in s.queues { assert QueueOk(s, w); } }
    forall n | n in s'.entries ensures EntryOk(s', n) { if n in s.entries { assert EntryOk(s, n); } }
    forall f | f in s'.failures ensures FailureOk(s', f) { if f in s.failures { assert FailureOk(s, f); } }
  }

  lemma DrainKeeps(s: State, k: QueueId)
    requires Inv(s) && Enabled(s, Drain(k))
    ensures Inv(Apply(s, Drain(k)))
  {
  }

  lemma SweepKeeps(s: State, k: QueueId)
    requires Inv(s) && Enabled(s, Sweep(k))
    ensures Inv(Apply(s, Sweep(k)))
  {
    var s' := Apply(s, Sweep(k));
    assert QueueOk(s, k);
    forall u | u in s'.tasks ensures TaskOk(s', u) { SweepTask(s, k, u); }
    forall w | w in s'.queues ensures QueueOk(s', w) { SweepQueue(s, k, w); }
    forall n | n in s'.entries ensures EntryOk(s', n) { assert EntryOk(s, n); }
    forall f | f in s'.failures ensures FailureOk(s', f) { assert FailureOk(s, f); }
  }

  lemma SweepTask(s: State, k: QueueId, u: TaskId)
    requires Inv(s) && Enabled(s, Sweep(k)) && u in s.tasks
    ensures TaskOk(Apply(s, Sweep(k)), u)
  {
    assert TaskOk(s, u);
  }

  lemma SweepQueue(s: State, k: QueueId, w: QueueId)
    requires Inv(s) && Enabled(s, Sweep(k)) && w in s.queues
    ensures QueueOk(Apply(s, Sweep(k)), w)
  {
    assert QueueOk(s, w);
    if s.queues[k].name in s.entries { assert EntryOk(s, s.queues[k].name); }
    if w == k && s.queues[k].name in s.entries && Live(s, s.entries[s.queues[k].name]) {
      LiveInLoop(s, s.entries[s.queues[k].name]);
    }
  }

  /** The worker of a live queue is still in its loop. */
  lemma LiveInLoop(s: State, k: QueueId)
    requires Inv(s) && Live(s, k)
    ensures k in s.queues && s.queues[k].worker.InLoop()
  {
  }

  lemma UnlockKeeps(s: State, k: QueueId)
    requires Inv(s) && Enabled(s, Unlock(k))
    ensures Inv(Apply(s, Unlock(k)))
  {
  }

  lemma TickKeeps(s: State, d: nat)
    requires Inv(s) && Enabled(s, Tick(d))
    ensures Inv(Apply(s, Tick(d)))
  {
  }

  lemma StepKeepsInv(s: State, a: Action)
    requires Inv(s) && Enabled(s, a)
    ensures Inv(Apply(s, a))
  {
    match a
    case Arrive(t, name) => ArriveKeeps(s, t, name);
    case Lookup(t, k) => LookupKeeps(s, t, k);
    case LockSender(t) => LockSenderKeeps(s, t);
    case Push(t) => PushKeeps(s, t);
    case Flushed(t) => FlushedKeeps(s, t);
    case Answer(t, verdict) => AnswerKeeps(s, t, verdict);
    case Wake(t) => WakeKeeps(s, t);
    case DropCompletion(t) => DropCompletionKeeps(s, t);
    case Finish(t) => FinishKeeps(s, t);
    case Take(k) => TakeKeeps(s, k);
    case Resume(k) => ResumeKeeps(s, k);
    case Drain(k) => DrainKeeps(s, k);
    case Sweep(k) => SweepKeeps(s, k);
    case Unlock(k) => UnlockKeeps(s, k);
    case Tick(d) => TickKeeps(s, d);
    case SendError(t) => ReceiverKept(s, t); assert false;
  }

  lemma ReceiverKept(s: State, t: TaskId)
    requires Inv(s)
    ensures !Enabled(s, SendError(t))
  {
    if t in s.tasks { assert TaskOk(s, t); }
  }

  lemma InitialInv(s: State)
    requires Initial(s)
    ensures Inv(s)
  {
  }

  lemma {:induction false} RunInv(r: seq<State>, i: nat)
    requires Run(r) && i < |r|
    ensures Inv(r[i])
  {
    if i == 0 {
      InitialInv(r[0]);
    } else {
      RunInv(r, i - 1);
      assert StepAt(r, i);
      var a :| Enabled(r[i - 1], a) && r[i] == Apply(r[i - 1], a);
      StepKeepsInv(r[i - 1], a);
    }
  }

  // ---------- Main results ----------

  /** Mutual exclusion per user name, in every state of every run. */
  lemma MutualExclusion(r: seq<State>, i: nat, t: TaskId, u: TaskId)
    requires Run(r) && i < |r| && t in r[i].tasks && u in r[i].tasks
    requires r[i].tasks[t].name == r[i].tasks[u].name
    requires r[i].tasks[t].phase.InCheck() && r[i].tasks[u].phase.InCheck()
    ensures t == u
  {
    RunInv(r, i);
    ChecksExclude(r[i], t, u);
  }

  /** How many of the rejections are for `name` and fall into the window [from, from + width]. */
  ghost function CountIn(fs: seq<Failure>, name: Name, from: nat, width: nat): nat {
    if fs == [] then 0
    else
      var last := fs[|fs| - 1];
      CountIn(fs[..|fs| - 1], name, from, width) +
      (if last.name == name && from <= last.time <= from + width then 1 else 0)
  }

  /** Rejections a penalty apart: if some rejection of the window is the last one before
      `bound`, all of them together fit between `from` and `bound`. */
  lemma {:induction false} CountSpaced(fs: seq<Failure>, name: Name, from: nat, width: nat, bound: nat)
    requires Spaced(fs)
    requires forall i :: 0 <= i < |fs| && fs[i].name == name ==> fs[i].time + PENALTY <= bound
    ensures CountIn(fs, name, from, width) > 0 ==>
              CountIn(fs, name, from, width) * PENALTY <= bound - from
  {
    if fs == [] {
    } else {
      var last := fs[|fs| - 1];
      var rest := fs[..|fs| - 1];
      assert Spaced(rest);
      if last.name == name && from <= last.time <= from + width {
        CountSpaced(rest, name, from, width, last.time);
      } else {
        CountSpaced(rest, name, from, width, bound);
      }
    }
  }

  /** The rejections on record lie a penalty apart, so a window of `width` milliseconds holds
      at most width / PENALTY + 1 of one user name. */
  lemma FailureRecord(r: seq<State>, i: nat, name: Name, from: nat, width: nat)
    requires Run(r) && i < |r|
    ensures Spaced(r[i].failures)
    ensures CountIn(r[i].failures, name, from, width) <= width / PENALTY + 1
  {
    RunInv(r, i);
    WindowBound(r[i].failures, name, from, width);
  }

  lemma {:induction false} WindowBound(fs: seq<Failure>, name: Name, from: nat, width: nat)
    requires Spaced(fs)
    ensures CountIn(fs, name, from, width) <= width / PENALTY + 1
  {
    if fs == [] {
    } else {
      var last := fs[|fs| - 1];
      var rest := fs[..|fs| - 1];
      assert Spaced(rest);
      if last.name == name && from <= last.time <= from + width {
        CountSpaced(rest, name, from, width, last.time);
      } else {
        WindowBound(rest, name, from, width);
      }
    }
  }

  /** Map hygiene: the worker of a dead entry has not finished, and a sweep removes nothing
      but the dead entry of its own name. */
  lemma Hygiene(r: seq<State>, i: nat)
    requires Run(r) && i < |r|
    ensures forall n :: n in r[i].entries ==>
              r[i].entries[n] in r[i].queues && r[i].queues[r[i].entries[n]].name == n &&
              (r[i].queues[r[i].entries[n]].worker.InLoop() || r[i].queues[r[i].entries[n]].worker.Draining?)
    ensures forall k :: Enabled(r[i], Sweep(k)) ==> SweepExact(r[i], k, Apply(r[i], Sweep(k)))
  {
    RunInv(r, i);
    forall n | n in r[i].entries
      ensures r[i].entries[n] in r[i].queues && r[i].queues[r[i].entries[n]].name == n &&
              (r[i].queues[r[i].entries[n]].worker.InLoop() || r[i].queues[r[i].entries[n]].worker.Draining?)
    {
      assert EntryOk(r[i], n);
    }
    forall k | Enabled(r[i], Sweep(k)) ensures SweepExact(r[i], k, Apply(r[i], Sweep(k))) {
    }
  }

  /** After the sweep of queue `k`: live entries are untouched, so are those of other names,
      and a dead entry of its own name is gone. */
  ghost predicate SweepExact(s: State, k: QueueId, s': State)
    requires k in s.queues
  {
    forall n :: n in s.entries ==>
      if n == s.queues[k].name && !Live(s, s.entries[n]) then n !in s'.entries
      else n in s'.entries && s'.entries[n] == s.entries[n]
  }

  /** The send result that the sign-in ignores is never an error: while an attempt has a
      handle of its queue, the queue's worker has not dropped the receiver. */
  lemma SendNeverFails(r: seq<State>, i: nat, t: TaskId)
    requires Run(r) && i < |r|
    ensures !Enabled(r[i], SendError(t))
  {
    RunInv(r, i);
    ReceiverKept(r[i], t);
  }

  /** The entry of a name whose queue nobody has a handle of. */
  ghost predicate DeadEntry(s: State, n: Name) {
    n in s.entries && s.entries[n] in s.queues && !Live(s, s.entries[n])
  }

  /** How far the worker of a queue is from sweeping. */
  function Distance(s: State, k: QueueId): nat
    requires k in s.queues
  {
    match s.queues[k].worker
    case Awaiting(t) => if t in s.tasks && s.tasks[t].phase.Resolved() then 3 else 4
    case Idle => 2
    case Draining => 1
    case _ => 0
  }

  /** A step that brings the worker of queue `k` nearer to its sweep, or does the sweep. */
  predicate Helps(s: State, k: QueueId, a: Action)
    requires k in s.queues
  {
    || a == Resume(k) || a == Drain(k) || a == Sweep(k)
    || (s.queues[k].worker.Awaiting? && a == DropCompletion(s.queues[k].worker.t))
  }

  /** For a dead entry there is always a step that helps its worker, or its worker waits for
      the map's lock, whose owner can release it. */
  lemma DeadEntryMoves(r: seq<State>, i: nat, n: Name)
    requires Run(r) && i < |r| && DeadEntry(r[i], n)
    ensures (exists a :: Helps(r[i], r[i].entries[n], a) && Enabled(r[i], a)) ||
            (r[i].mapLock.Some? && Enabled(r[i], Unlock(r[i].mapLock.value)))
  {
    var s := r[i];
    var k := s.entries[n];
    RunInv(r, i);
    assert EntryOk(s, n) && QueueOk(s, k);
    match s.queues[k].worker
    case Awaiting(t) =>
      assert !s.tasks[t].phase.Holds(k);
      assert Enabled(s, if s.tasks[t].phase.Leaving? then DropCompletion(t) else Resume(k));
    case Idle =>
      if s.queues[k].slot.Some? { assert s.tasks[s.queues[k].slot.value].phase.Holds(k); }
      assert Enabled(s, Drain(k));
    case Draining =>
      if s.mapLock.None? { assert Enabled(s, Sweep(k)); }
  }

  /** The step has replaced or removed the entry of `n`, or has left it dead, its worker not
      farther from the sweep and, by a step that helps, nearer; its sweep removes the entry. */
  ghost predicate Withers(s: State, n: Name, a: Action, s': State)
    requires DeadEntry(s, n)
  {
    var k := s.entries[n];
    n in s'.entries && s'.entries[n] == k ==>
      && DeadEntry(s', n) && a != Sweep(k)
      && Distance(s', k) <= Distance(s, k)
      && (Helps(s, k, a) ==> Distance(s', k) < Distance(s, k))
  }

  /** No dead entry comes back to life, and every step that helps brings its worker nearer to
      the sweep that removes it. */
  lemma DeadEntryGoes(r: seq<State>, i: nat, n: Name, a: Action)
    requires Run(r) && i < |r| && DeadEntry(r[i], n) && Enabled(r[i], a)
    ensures Withers(r[i], n, a, Apply(r[i], a))
  {
    RunInv(r, i);
    if OfWorker(a) {
      WithersByWorker(r[i], n, a);
    } else if a.Lookup? {
      WithersByLookup(r[i], n, a.t, a.k);
    } else {
      WithersByAttempt(r[i], n, a);
    }
  }

  predicate OfWorker(a: Action) { a.Take? || a.Resume? || a.Drain? || a.Sweep? || a.Unlock? }

  lemma WithersByWorker(s: State, n: Name, a: Action)
    requires Inv(s) && DeadEntry(s, n) && Enabled(s, a) && OfWorker(a)
    ensures Withers(s, n, a, Apply(s, a))
  {
    assert EntryOk(s, n) && QueueOk(s, s.entries[n]);
    if a.Sweep? { WithersBySweep(s, n, a.k); }
  }

  lemma WithersBySweep(s: State, n: Name, k: QueueId)
    requires Inv(s) && DeadEntry(s, n) && Enabled(s, Action.Sweep(k))
    ensures Withers(s, n, Action.Sweep(k), SweepStep(s, k))
  {
    assert EntryOk(s, n);
  }

  lemma WithersByLookup(s: State, n: Name, t: TaskId, k: QueueId)
    requires Inv(s) && DeadEntry(s, n) && Enabled(s, Lookup(t, k))
    ensures Withers(s, n, Lookup(t, k), LookupStep(s, t, k))
  {
    assert EntryOk(s, n) && QueueOk(s, s.entries[n]);
  }

  lemma WithersByAttempt(s: State, n: Name, a: Action)
    requires Inv(s) && DeadEntry(s, n) && Enabled(s, a) && !OfWorker(a) && !a.Lookup?
    ensures Withers(s, n, a, Apply(s, a))
  {
    if OfChannel(a) {
      WithersByChannel(s, n, a);
    } else {
      assert EntryOk(s, n) && QueueOk(s, s.entries[n]);
    }
  }

  predicate OfChannel(a: Action) { a.LockSender? || a.Push? || a.SendError? || a.Flushed? }

  lemma WithersByChannel(s: State, n: Name, a: Action)
    requires Inv(s) && DeadEntry(s, n) && Enabled(s, a) && OfChannel(a)
    ensures Withers(s, n, a, Apply(s, a))
  {
    assert EntryOk(s, n) && QueueOk(s, s.entries[n]);
  }

  /** No worker can take a step. */
  ghost predicate WorkersRest(s: State) {
    forall k :: !Enabled(s, Take(k)) && !Enabled(s, Resume(k)) && !Enabled(s, Drain(k)) &&
                !Enabled(s, Sweep(k)) && !Enabled(s, Unlock(k))
  }

  lemma NobodyPeeks(s: State)
    requires Inv(s) && WorkersRest(s)
    ensures s.mapLock.None?
    ensures forall w :: w in s.queues ==> !s.queues[w].worker.Peeking?
  {
    forall w | w in s.queues ensures !s.queues[w].worker.Peeking? {
      assert !Enabled(s, Unlock(w));
    }
  }

  /** Nothing leaks: when every attempt is over and the workers have come to rest, every
      worker has finished and the map is empty. */
  lemma RestIsEmpty(r: seq<State>, i: nat)
    requires Run(r) && i < |r|
    requires forall t :: t in r[i].tasks ==> r[i].tasks[t].phase.Done?
    requires WorkersRest(r[i])
    ensures r[i].entries == map[]
    ensures forall k :: k in r[i].queues ==> r[i].queues[k].worker.Gone?
  {
    var s := r[i];
    RunInv(r, i);
    NobodyPeeks(s);
    forall n | n in s.entries ensures s.entries[n] in s.queues && !s.queues[s.entries[n]].worker.Gone? {
      assert EntryOk(s, n);
    }
    forall k | k in s.queues ensures s.queues[k].worker.Gone? {
      assert QueueOk(s, k);
      assert !Enabled(s, Take(k)) && !Enabled(s, Resume(k)) && !Enabled(s, Drain(k));
      assert !Enabled(s, Sweep(k));
    }
  }

  /** Nothing can happen except the password checks of the SSH server and the clock. */
  ghost predicate ServerRests(s: State) {
    && WorkersRest(s)
    && (forall t, k :: !Enabled(s, Lookup(t, k)))
    && (forall t :: !Enabled(s, LockSender(t)) && !Enabled(s, Push(t)) && !Enabled(s, Flushed(t)))
    && (forall t :: !Enabled(s, DropCompletion(t)) && !Enabled(s, Finish(t)))
  }

  /** When the server has nothing left to do, every attempt is over, in its check, or on its way
      to the check with its queue obtained; and the map's lock is free. */
  lemma RestPhases(r: seq<State>, i: nat, t: TaskId)
    requires Run(r) && i < |r| && t in r[i].tasks && ServerRests(r[i])
    ensures r[i].mapLock.None?
    ensures var p := r[i].tasks[t].phase; p.Done? || p.InCheck() || p.Queued? || p.Locked? || p.Sending?
  {
    var s := r[i];
    RunInv(r, i);
    NobodyPeeks(s);
    var k := FreshQueue(s.queues.Keys);
    assert k !in s.queues;
    assert !Enabled(s, Lookup(t, k)) && !Enabled(s, DropCompletion(t)) && !Enabled(s, Finish(t));
  }

  lemma FreshQueue(ks: set<QueueId>) returns (k: QueueId)
    ensures k !in ks && forall j :: j in ks ==> j < k
  {
    if ks == {} {
      k := 0;
    } else {
      var j :| j in ks;
      var above := FreshQueue(ks - {j});
      k := if j < above then above else j + 1;
      forall x | x in ks ensures x < k { if x != j { assert x in ks - {j}; } }
    }
  }

  /** Isolation of users: when the server has nothing left to do, an attempt that is still
      on its way to its check waits for the check of another attempt of its own user. */
  lemma WaitsForOwnUser(r: seq<State>, i: nat, t: TaskId)
    requires Run(r) && i < |r| && t in r[i].tasks
    requires ServerRests(r[i])
    requires r[i].tasks[t].phase.Queued? || r[i].tasks[t].phase.Locked? || r[i].tasks[t].phase.Sending?
    ensures exists u :: u in r[i].tasks && r[i].tasks[u].name == r[i].tasks[t].name &&
                        r[i].tasks[u].phase.InCheck()
  {
    var s := r[i];
    RunInv(r, i);
    assert TaskOk(s, t);
    var k := s.tasks[t].phase.q;
    assert !Enabled(s, LockSender(t)) && !Enabled(s, Push(t));
    OwnerWaits(s, k);
    CheckHoldsChannel(s, k);
  }

  /** The owner of a queue's sender waits for the channel's item to be taken. */
  lemma OwnerWaits(s: State, k: QueueId)
    requires Inv(s) && ServerRests(s) && k in s.queues && s.queues[k].sender.Some?
    ensures s.queues[k].slot == s.queues[k].sender
  {
    assert QueueOk(s, k);
    var h := s.queues[k].sender.value;
    assert TaskOk(s, h);
    if s.queues[k].slot.Some? { assert TaskOk(s, s.queues[k].slot.value); }
    assert !Enabled(s, Push(h)) && !Enabled(s, Flushed(h));
  }

  /** While an item waits in the channel of a queue at rest, some attempt is in its check. */
  lemma CheckHoldsChannel(s: State, k: QueueId)
    requires Inv(s) && ServerRests(s) && k in s.queues && s.queues[k].slot.Some?
    requires s.queues[k].slot == s.queues[k].sender
    ensures exists u :: u in s.tasks && s.tasks[u].name == s.queues[k].name && s.tasks[u].phase.InCheck()
  {
    assert QueueOk(s, k);
    assert TaskOk(s, s.queues[k].slot.value);
    assert !Enabled(s, Take(k));
    var u := s.queues[k].worker.t;
    assert TaskOk(s, u);
    assert !Enabled(s, Resume(k)) && !Enabled(s, DropCompletion(u));
    assert s.tasks[u].phase.InCheck();
  }

  // ---------- What happened in a run ----------

  /** A run together with its steps: `acts[m]` leads from `r[m]` to `r[m + 1]`. */
  ghost predicate Trace(r: seq<State>, acts: seq<Action>) {
    && |r| == |acts| + 1
    && Initial(r[0])
    && forall m :: 0 <= m < |acts| ==> Took(r, acts, m)
  }

  ghost predicate Took(r: seq<State>, acts: seq<Action>, m: nat)
    requires m < |acts| && |r| == |acts| + 1
  {
    Enabled(r[m], acts[m]) && r[m + 1] == Apply(r[m], acts[m])
  }

  lemma TraceIsRun(r: seq<State>, acts: seq<Action>)
    requires Trace(r, acts)
    ensures Run(r)
  {
    forall i | 0 < i < |r| ensures StepAt(r, i) { assert Took(r, acts, i - 1); }
  }

  /** The attempt whose own step an action is, and who it is. */
  function Attempt(a: Action): Option<TaskId> {
    match a
    case Arrive(t, _) => Some(t)
    case Lookup(t, _) => Some(t)
    case LockSender(t) => Some(t)
    case Push(t) => Some(t)
    case SendError(t) => Some(t)
    case Flushed(t) => Some(t)
    case Answer(t, _) => Some(t)
    case Wake(t) => Some(t)
    case DropCompletion(t) => Some(t)
    case Finish(t) => Some(t)
    case _ => None
  }

  /** How far an attempt has come. */
  function Stage(p: Phase): nat {
    match p
    case Connected => 0
    case Queued(_) => 1
    case Locked(_) => 2
    case Sending(_) => 3
    case Checking(_) => 4
    case Sleeping(_, _) => 5
    case Passed(_) => 6
    case Leaving => 6
    case Done => 7
  }

  /** Every step of an attempt takes it forward, and no other step touches it: seven steps at
      most lead from its connection to its end. */
  lemma AttemptsAdvance(s: State, a: Action, t: TaskId)
    requires Enabled(s, a) && t in s.tasks
    ensures t in Apply(s, a).tasks && Apply(s, a).tasks[t].name == s.tasks[t].name
    ensures if Attempt(a) == Some(t) then Stage(Apply(s, a).tasks[t].phase) > Stage(s.tasks[t].phase)
            else Apply(s, a).tasks[t] == s.tasks[t]
  {
  }

  /** What the worker of a queue still has to do. */
  function Work(q: Queue): nat {
    (if q.slot.Some? then 2 else 0) +
    (match q.worker
     case Awaiting(_) => 4
     case Idle => 3
     case Draining => 2
     case Peeking(_) => 1
     case Gone => 0)
  }

  /** Every step of a worker leaves it with less to do and no other queue touched; only the
      push of an attempt gives a worker more. */
  lemma WorkersAdvance(s: State, a: Action, k: QueueId)
    requires Enabled(s, a) && k in s.queues
    ensures k in Apply(s, a).queues
    ensures OfWorker(a) && a.k == k ==> Work(Apply(s, a).queues[k]) < Work(s.queues[k])
    ensures OfWorker(a) && a.k != k ==> Apply(s, a).queues[k] == s.queues[k]
    ensures !OfWorker(a) && !a.Push? ==> Work(Apply(s, a).queues[k]) == Work(s.queues[k])
  {
    if OfWorker(a) { WorkerWorks(s, a, k); }
  }

  lemma WorkerWorks(s: State, a: Action, k: QueueId)
    requires Enabled(s, a) && k in s.queues && OfWorker(a)
    ensures k in Apply(s, a).queues
    ensures a.k == k ==> Work(Apply(s, a).queues[k]) < Work(s.queues[k])
    ensures a.k != k ==> Apply(s, a).queues[k] == s.queues[k]
  {
  }

  /** The action at `m` is the answer Ok(false) for an attempt of `name`. */
  ghost predicate Rejects(r: seq<State>, acts: seq<Action>, m: nat, name: Name)
    requires m < |acts| && |r| == |acts| + 1
  {
    acts[m].Answer? && acts[m].verdict.Reject? && acts[m].t in r[m].tasks && r[m].tasks[acts[m].t].name == name
  }

  /** The record of rejections grows by exactly those that happen. */
  lemma RecordStep(s: State, a: Action)
    requires Enabled(s, a)
    ensures Apply(s, a).failures ==
            if a.Answer? && a.verdict.Reject? then s.failures + [Failure(s.tasks[a.t].name, s.now, a.t)]
            else s.failures
  {
  }

  lemma {:induction false} RecordGrows(r: seq<State>, acts: seq<Action>, i: nat, j: nat)
    requires Trace(r, acts) && i <= j < |r|
    ensures r[i].failures <= r[j].failures
  {
    if i < j {
      RecordGrows(r, acts, i, j - 1);
      assert Took(r, acts, j - 1);
      RecordStep(r[j - 1], acts[j - 1]);
    }
  }

  /** Two answers Ok(false) for one user name lie at least 5000 milliseconds apart. */
  lemma FailureSpacing(r: seq<State>, acts: seq<Action>, name: Name, i: nat, j: nat)
    requires Trace(r, acts) && i < j < |acts|
    requires Rejects(r, acts, i, name) && Rejects(r, acts, j, name)
    ensures r[i].now + 5000 <= r[j].now
  {
    TraceIsRun(r, acts);
    RunInv(r, j + 1);
    assert Took(r, acts, i) && Took(r, acts, j);
    RecordStep(r[i], acts[i]);
    RecordStep(r[j], acts[j]);
    RecordGrows(r, acts, i + 1, j);
    var fs, first := r[j + 1].failures, |r[i].failures|;
    assert r[i + 1].failures[first] == Failure(name, r[i].now, acts[i].t);
    assert fs[first] == r[j].failures[first] == r[i + 1].failures[first];
    assert fs[|fs| - 1] == Failure(name, r[j].now, acts[j].t);
  }

  /** How many of the first `n` steps are answers Ok(false) for `name` in the window. */
  ghost function RejectsIn(r: seq<State>, acts: seq<Action>, n: nat, name: Name, from: nat, width: nat): nat
    requires n <= |acts| && |r| == |acts| + 1
  {
    if n == 0 then 0
    else
      RejectsIn(r, acts, n - 1, name, from, width) +
      (if Rejects(r, acts, n - 1, name) && from <= r[n - 1].now <= from + width then 1 else 0)
  }

  lemma {:induction false} RejectsAreRecorded(
    r: seq<State>, acts: seq<Action>, n: nat, name: Name, from: nat, width: nat)
    requires Trace(r, acts) && n <= |acts|
    ensures RejectsIn(r, acts, n, name, from, width) == CountIn(r[n].failures, name, from, width)
  {
    if n == 0 {
    } else {
      RejectsAreRecorded(r, acts, n - 1, name, from, width);
      assert Took(r, acts, n - 1);
      RecordStep(r[n - 1], acts[n - 1]);
      if r[n].failures != r[n - 1].failures { assert r[n].failures[..|r[n].failures| - 1] == r[n - 1].failures; }
    }
  }

  /** Failure spacing over whole runs: any window of `width` milliseconds has at most
      width / 5000 + 1 answers Ok(false) for one user name, across queue death and re-creation. */
  lemma FailureRate(r: seq<State>, acts: seq<Action>, name: Name, from: nat, width: nat)
    requires Trace(r, acts)
    ensures RejectsIn(r, acts, |acts|, name, from, width) <= width / 5000 + 1
  {
    TraceIsRun(r, acts);
    RejectsAreRecorded(r, acts, |acts|, name, from, width);
    FailureRecord(r, |acts|, name, from, width);
  }

  /** The password check of attempt `t` is over: it was answered, and a penalty slept. */
  predicate EndsCheck(a: Action, t: TaskId) {
    (a.Answer? && a.t == t && !a.verdict.Reject?) || a == Wake(t)
  }

  lemma CheckGoesOn(s: State, a: Action, t: TaskId)
    requires Enabled(s, a) && t in s.tasks && s.tasks[t].phase.InCheck() && !EndsCheck(a, t)
    ensures t in Apply(s, a).tasks && Apply(s, a).tasks[t].phase.InCheck()
    ensures Apply(s, a).tasks[t].name == s.tasks[t].name
  {
    AttemptsAdvance(s, a, t);
  }

  /** Once its send is completed, an attempt is in its check until that is over. */
  lemma {:induction false} InCheckUntil(r: seq<State>, acts: seq<Action>, t: TaskId, i: nat, j: nat)
    requires Trace(r, acts) && i < j < |r| && acts[i] == Flushed(t)
    requires forall m :: i < m < j ==> !EndsCheck(acts[m], t)
    ensures t in r[j].tasks && r[j].tasks[t].phase.InCheck()
    ensures t in r[i].tasks && r[j].tasks[t].name == r[i].tasks[t].name
  {
    assert Took(r, acts, j - 1);
    if j > i + 1 {
      InCheckUntil(r, acts, t, i, j - 1);
      CheckGoesOn(r[j - 1], acts[j - 1], t);
    }
  }

  /** Mutual exclusion by what happens: between the completed sends of two attempts of one user
      name, the check of the first one has come to its end. */
  lemma ChecksTakeTurns(r: seq<State>, acts: seq<Action>, t: TaskId, u: TaskId, i: nat, j: nat)
    requires Trace(r, acts) && i < j < |acts| && acts[i] == Flushed(t) && acts[j] == Flushed(u) && t != u
    requires t in r[j].tasks && u in r[j].tasks && r[j].tasks[t].name == r[j].tasks[u].name
    ensures exists m :: i < m < j && EndsCheck(acts[m], t)
  {
    if forall m :: i < m < j ==> !EndsCheck(acts[m], t) {
      TraceIsRun(r, acts);
      assert Took(r, acts, j);
      AttemptsAdvance(r[j], acts[j], u);
      InCheckUntil(r, acts, t, i, j);
      CheckGoesOn(r[j], acts[j], t);
      InCheckUntil(r, acts, u, j, j + 1);
      InCheckUntil(r, acts, t, i, j + 1);
      MutualExclusion(r, j + 1, t, u);
    }
  }

  /** Only a rejected attempt sleeps, and for 5000 milliseconds. */
  lemma {:induction false} OnlyRejectedSleep(r: seq<State>, acts: seq<Action>, t: TaskId, n: nat)
    requires Trace(r, acts) && n < |r| && t in r[n].tasks && r[n].tasks[t].phase.Sleeping?
    ensures exists m :: 0 <= m < n && acts[m] == Answer(t, Reject) && r[n].tasks[t].phase.until == r[m].now + 5000
  {
    assert n > 0;
    assert Took(r, acts, n - 1);
    if acts[n - 1] != Answer(t, Reject) {
      SleepsBefore(r[n - 1], acts[n - 1], t);
      OnlyRejectedSleep(r, acts, t, n - 1);
    }
  }

  /** The penalty is not longer either: from 5000 milliseconds after the rejection on, the
      attempt can wake unless it has. */
  lemma {:induction false} WakesInTime(r: seq<State>, acts: seq<Action>, t: TaskId, i: nat, j: nat)
    requires Trace(r, acts) && i < j < |r| && acts[i] == Answer(t, Reject)
    requires forall m :: i < m < j ==> acts[m] != Wake(t)
    ensures t in r[j].tasks && r[j].tasks[t].phase.Sleeping? && r[j].tasks[t].phase.until == r[i].now + 5000
    ensures r[i].now + 5000 <= r[j].now ==> Enabled(r[j], Wake(t))
  {
    assert Took(r, acts, j - 1);
    if j > i + 1 {
      WakesInTime(r, acts, t, i, j - 1);
      SleepGoesOn(r[j - 1], acts[j - 1], t);
    }
  }

  lemma SleepGoesOn(s: State, a: Action, t: TaskId)
    requires Enabled(s, a) && t in s.tasks && s.tasks[t].phase.Sleeping? && a != Wake(t)
    ensures t in Apply(s, a).tasks && Apply(s, a).tasks[t] == s.tasks[t]
  {
    AttemptsAdvance(s, a, t);
  }

  /** An accepted attempt completes its check at once, and so does one whose check failed,
      as soon as it lets its sender go; neither keeps its queue waiting. */
  lemma AnswerSettles(s: State, t: TaskId, verdict: Verdict)
    requires Enabled(s, Answer(t, verdict))
    ensures verdict.Accept? ==> Apply(s, Answer(t, Accept)).tasks[t].phase == Passed(s.tasks[t].phase.q)
    ensures verdict.Accept? ==> Apply(s, Answer(t, Accept)).tasks[t].phase.Resolved()
    ensures verdict.Failed? ==> Enabled(Apply(s, Answer(t, Failed)), DropCompletion(t))
    ensures verdict.Failed? ==> !Apply(s, Answer(t, Failed)).tasks[t].phase.HasHandle()
  {
  }

  lemma SleepsBefore(s: State, a: Action, t: TaskId)
    requires Enabled(s, a) && a != Answer(t, Reject)
    requires t in Apply(s, a).tasks && Apply(s, a).tasks[t].phase.Sleeping?
    ensures t in s.tasks && s.tasks[t] == Apply(s, a).tasks[t]
  {
    if t in s.tasks { AttemptsAdvance(s, a, t); }
  }

  // ---------- Reference counts ----------

  ghost function Holders(tasks: map<TaskId, Task>, k: QueueId): set<TaskId> {
    set t | t in tasks && tasks[t].phase.Holds(k)
  }

  ghost function Peekers(queues: map<QueueId, Queue>, k: QueueId): set<QueueId> {
    set w | w in queues && queues[w].worker == Peeking(k)
  }

  /** The strong count of a queue's shared handle. */
  ghost function StrongCount(s: State, k: QueueId): nat {
    |Holders(s.tasks, k)| + |Peekers(s.queues, k)|
  }

  ghost function Counts(s: State): QueueId -> nat { k => StrongCount(s, k) }

  lemma LiveIffCounted(s: State, k: QueueId)
    ensures Live(s, k) <==> Counts(s)(k) > 0
  {
    if t :| t in s.tasks && s.tasks[t].phase.Holds(k) { assert t in Holders(s.tasks, k); }
    if w :| w in s.queues && s.queues[w].worker == Peeking(k) { assert w in Peekers(s.queues, k); }
    if Holders(s.tasks, k) != {} { var t :| t in Holders(s.tasks, k); }
    if Peekers(s.queues, k) != {} { var w :| w in Peekers(s.queues, k); }
  }

  /** Two sets that agree but for `x` differ in size by that element. */
  lemma DifferByOne<T>(a: set<T>, b: set<T>, x: T)
    requires a - {x} == b - {x}
    ensures |a| + (if x in b then 1 else 0) == |b| + (if x in a then 1 else 0)
  {
    var rest := a - {x};
    assert a == if x in a then rest + {x} else rest;
    assert b == if x in b then rest + {x} else rest;
  }

  /** Changing the phase of one attempt changes the handles by that attempt's own. */
  lemma HoldersStep(tasks: map<TaskId, Task>, t: TaskId, p: Phase, j: QueueId)
    requires t in tasks
    ensures |Holders(tasks[t := tasks[t].(phase := p)], j)| + (if tasks[t].phase.Holds(j) then 1 else 0)
         == |Holders(tasks, j)| + (if p.Holds(j) then 1 else 0)
  {
    var tasks' := tasks[t := tasks[t].(phase := p)];
    var a, b := Holders(tasks', j), Holders(tasks, j);
    forall u | u != t ensures u in a <==> u in b { assert u in tasks' ==> tasks'[u] == tasks[u]; }
    DifferByOne(a, b, t);
  }

  /** Changing one queue, or adding one, changes the temporary handles by its worker's own. */
  lemma PeekersStep(queues: map<QueueId, Queue>, k: QueueId, q: Queue, j: QueueId)
    ensures |Peekers(queues[k := q], j)| + (if k in queues && queues[k].worker == Peeking(j) then 1 else 0)
         == |Peekers(queues, j)| + (if q.worker == Peeking(j) then 1 else 0)
  {
    var queues' := queues[k := q];
    var a, b := Peekers(queues', j), Peekers(queues, j);
    forall w | w != k ensures w in a <==> w in b { assert w in queues' ==> queues'[w] == queues[w]; }
    DifferByOne(a, b, k);
  }

  /** `more` counts one handle of `q` more than `count`. */
  ghost predicate OneMore(count: QueueId -> nat, more: QueueId -> nat, q: QueueId) {
    forall k :: more(k) == count(k) + if k == q then 1 else 0
  }

  ghost predicate EntryLive(s: State, name: Name) {
    name in s.entries && Live(s, s.entries[name])
  }

  /** A lookup gives out one handle: of the entry's queue if that has one already, else of a
      new queue. */
  lemma LookupCounts(s: State, t: TaskId, k: QueueId)
    requires Enabled(s, Lookup(t, k))
    ensures var name := s.tasks[t].name;
            OneMore(Counts(s), Counts(LookupStep(s, t, k)),
                    if name in s.entries && Counts(s)(s.entries[name]) > 0 then s.entries[name] else k)
  {
    var name := s.tasks[t].name;
    if name in s.entries { LiveIffCounted(s, s.entries[name]); }
    LookupCountsLive(s, t, k, if EntryLive(s, name) then s.entries[name] else k);
  }

  lemma LookupCountsLive(s: State, t: TaskId, k: QueueId, q: QueueId)
    requires Enabled(s, Lookup(t, k))
    requires q == if EntryLive(s, s.tasks[t].name) then s.entries[s.tasks[t].name] else k
    ensures OneMore(Counts(s), Counts(LookupStep(s, t, k)), q)
  {
    var s' := LookupStep(s, t, k);
    forall j ensures Counts(s')(j) == Counts(s)(j) + if j == q then 1 else 0 {
      HoldersStep(s.tasks, t, Queued(q), j);
      PeekersStep(s.queues, k, Queue(s.tasks[t].name, None, None, Idle), j);
    }
  }

  /** A sweep that finds the entry alive adds one handle until the lock is released. */
  lemma SweepCounts(s: State, k: QueueId)
    requires Enabled(s, Action.Sweep(k)) && EntryLive(s, s.queues[k].name)
    ensures OneMore(Counts(s), Counts(SweepStep(s, k)), s.entries[s.queues[k].name])
  {
    var q := s.entries[s.queues[k].name];
    PeekCounts(s, SweepStep(s, k), k, q);
  }

  lemma PeekCounts(s: State, s': State, k: QueueId, q: QueueId)
    requires k in s.queues && !s.queues[k].worker.Peeking? && s'.tasks == s.tasks
    requires s'.queues == s.queues[k := s.queues[k].(worker := Peeking(q))]
    ensures OneMore(Counts(s), Counts(s'), q)
  {
    forall j ensures Counts(s')(j) == Counts(s)(j) + if j == q then 1 else 0 {
      PeekersStep(s.queues, k, s.queues[k].(worker := Peeking(q)), j);
    }
  }

  /** An attempt that leaves, or is over, gives its handle back. */
  lemma DropCounts(s: State, t: TaskId, p: Phase)
    requires t in s.tasks && s.tasks[t].phase.HasHandle() && !p.HasHandle()
    ensures OneMore(Counts(SetPhase(s, t, p)), Counts(s), s.tasks[t].phase.q)
  {
    forall j ensures Counts(s)(j) == Counts(SetPhase(s, t, p))(j) + if j == s.tasks[t].phase.q then 1 else 0 {
      HoldersStep(s.tasks, t, p, j);
    }
  }

  // ---------- The shared map as an object ----------

  /** The map of weak handles. `upgraded` says whether the weak handle of the entry could be
      upgraded, which is the case exactly while its queue is live. */
  class QueueTable {
    var entries: map<Name, QueueId>

    constructor ()
      ensures entries == map[]
    {
      entries := map[];
    }

    /** Under the map's lock: upgrade the entry of a name, or install the new queue `k`. */
    method Obtain(name: Name, k: QueueId, upgraded: bool, ghost s: State, ghost t: TaskId)
      returns (q: QueueId)
      requires entries == s.entries && Enabled(s, Lookup(t, k)) && s.tasks[t].name == name
      requires name in entries ==> upgraded == Live(s, entries[name])
      modifies this
      ensures entries == LookupStep(s, t, k).entries
      ensures LookupStep(s, t, k).tasks[t].phase == Queued(q)
      ensures if name in old(entries) && upgraded then q == old(entries)[name] && entries == old(entries)
              else q == k && entries == old(entries)[name := k]
    {
      if name in entries && upgraded {
        q := entries[name];
      } else {
        q := k;
        entries := entries[name := k];
      }
    }

    /** Under the map's lock: a worker removes the entry of its name if that is dead. */
    method Sweep(name: Name, upgraded: bool, ghost s: State, ghost k: QueueId)
      requires entries == s.entries && Enabled(s, Action.Sweep(k)) && s.queues[k].name == name
      requires name in entries ==> upgraded == Live(s, entries[name])
      modifies this
      ensures entries == SweepStep(s, k).entries
      ensures entries == if name in old(entries) && !upgraded then old(entries) - {name} else old(entries)
    {
      if name in entries {
        if !upgraded { entries := entries - {name}; }
      }
    }
  }
}
