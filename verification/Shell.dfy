/** Shells and the event stream of one browser, as a step relation over any number of shell
    instances.

    Every instance polls its SSH channel and its input; data goes as an event through the
    client connection, under the connection's lock, into the event channel, and from there
    into the browser's websocket, in order. Other events take the same way. */
module Shell {
  import opened Common

  type Name = string
  type Instance = nat

  /** The registry of running shells; `stopped` are the instances whose input was closed. */
  datatype Registry = Registry(shells: map<Name, Instance>, stopped: set<Instance>)

  function Opened(r: Registry, name: Name, k: Instance): Registry {
    if name in r.shells then r else r.(shells := r.shells[name := k])
  }

  function Removed(r: Registry, name: Name): Registry {
    if name in r.shells then Registry(r.shells - {name}, r.stopped + {r.shells[name]}) else r
  }

  /** The `shells` map. An entry stays when its instance ends by itself, so that the name can
      be opened again only after a close. */
  class Shells {
    var shells: map<Name, Instance>
    var stopped: set<Instance>

    function View(): Registry
      reads this
    {
      Registry(shells, stopped)
    }

    constructor ()
      ensures View() == Registry(map[], {})
    {
      shells, stopped := map[], {};
    }

    /** `granted` says whether the SSH session gives a channel with a terminal and a shell. */
    method Open(name: Name, k: Instance, granted: bool) returns (started: bool, failed: bool)
      modifies this
      ensures View() == if granted then Opened(old(View()), name, k) else old(View())
      ensures started <==> name !in old(shells) && granted
      ensures failed <==> name !in old(shells) && !granted
      ensures shells == (if started then old(shells)[name := k] else old(shells)) && stopped == old(stopped)
    {
      started, failed := false, false;
      if name !in shells {
        if !granted { failed := true; return; }
        shells := shells[name := k];
        started := true;
      }
    }

    method Close(name: Name) returns (found: bool)
      modifies this
      ensures View() == Removed(old(View()), name)
      ensures found <==> name in old(shells)
      ensures shells == old(shells) - {name} && name !in shells
      ensures stopped == old(stopped) + (if found then {old(shells)[name]} else {})
    {
      found := name in shells;
      assert !found ==> shells - {name} == shells;
      if found {
        stopped := stopped + {shells[name]};
        shells := shells - {name};
      }
    }
  }

  datatype Phase =
    | Polling
    | Holding                 // has taken the next output, waits to forward it
    | Closing                 // the loop has ended, the close event is to be forwarded
    | Finished
    | Failed                  // ended by an error, without a close event

  /** `output` is what the SSH channel has sent so far, `taken` how much of it was taken. */
  datatype Worker = Worker(name: Name, output: seq<Bytes>, taken: nat, ended: bool, phase: Phase)

  datatype Event = Data(k: Instance, data: Bytes) | Close(k: Instance) | Other(text: string)

  /** `events` is what went into the event channel, `shown` how much of it reached the browser. */
  datatype State = State(
    registry: Registry,
    workers: map<Instance, Worker>,
    events: seq<Event>,
    shown: nat,
    open: bool)

  datatype Action =
    | Start(k: Instance, name: Name)
    | Stop(name: Name)
    | Produce(k: Instance, data: Bytes)
    | EndOutput(k: Instance)
    | Take(k: Instance)
    | Forward(k: Instance)
    | WriteFails(k: Instance)        // the input could not be written
    | Leave(k: Instance)             // the input is closed, or the channel at its end
    | ForwardClose(k: Instance)
    | OtherEvent(text: string)
    | Show
    | Disconnect

  predicate At(s: State, k: Instance, p: Phase) { k in s.workers && s.workers[k].phase == p }

  predicate Enabled(s: State, a: Action) {
    match a
    case Start(k, name) => k !in s.workers && name !in s.registry.shells
    case Stop(_) => true
    case Produce(k, _) => k in s.workers && !s.workers[k].ended
    case EndOutput(k) => k in s.workers && !s.workers[k].ended
    case Take(k) => At(s, k, Polling) && s.workers[k].taken < |s.workers[k].output|
    case Forward(k) => At(s, k, Holding) && 0 < s.workers[k].taken <= |s.workers[k].output|
    case WriteFails(k) => At(s, k, Polling)
    case Leave(k) =>
      At(s, k, Polling) &&
      (k in s.registry.stopped || (s.workers[k].ended && s.workers[k].taken == |s.workers[k].output|))
    case ForwardClose(k) => At(s, k, Closing)
    case OtherEvent(_) => s.open
    case Show => s.shown < |s.events|
    case Disconnect => true
  }

  function SetWorker(s: State, k: Instance, w: Worker): State {
    s.(workers := s.workers[k := w])
  }

  function SetPhase(s: State, k: Instance, p: Phase): State
    requires k in s.workers
  {
    SetWorker(s, k, s.workers[k].(phase := p))
  }

  function Apply(s: State, a: Action): State
    requires Enabled(s, a)
  {
    match a
    case Start(k, name) =>
      SetWorker(s, k, Worker(name, [], 0, false, Polling)).(registry := Opened(s.registry, name, k))
    case Stop(name) => s.(registry := Removed(s.registry, name))
    case Produce(k, data) => SetWorker(s, k, s.workers[k].(output := s.workers[k].output + [data]))
    case EndOutput(k) => SetWorker(s, k, s.workers[k].(ended := true))
    case Take(k) => SetWorker(s, k, s.workers[k].(taken := s.workers[k].taken + 1, phase := Holding))
    case Forward(k) =>
      if s.open then
        SetPhase(s, k, Polling).(events := s.events + [Data(k, s.workers[k].output[s.workers[k].taken - 1])])
      else
        SetPhase(s, k, Failed)
    case WriteFails(k) => SetPhase(s, k, Failed)
    case Leave(k) => SetPhase(s, k, Closing)
    case ForwardClose(k) =>
      SetPhase(s, k, Finished).(events := if s.open then s.events + [Close(k)] else s.events)
    case OtherEvent(text) => s.(events := s.events + [Other(text)])
    case Show => s.(shown := s.shown + 1)
    case Disconnect => s.(open := false)
  }

  ghost predicate Run(r: seq<State>) {
    && |r| > 0
    && r[0] == State(Registry(map[], {}), map[], [], 0, true)
    && forall i :: 0 < i < |r| ==> StepAt(r, i)
  }

  ghost predicate StepAt(r: seq<State>, i: int)
    requires 0 < i < |r|
  {
    Leads(r[i - 1], r[i])
  }

  ghost predicate Leads(s: State, s': State) { exists a :: Happens(s, a, s') }

  predicate Happens(s: State, a: Action, s': State) { Enabled(s, a) && s' == Apply(s, a) }

  /** The data of one instance among some events, in order. */
  function DataOf(events: seq<Event>, k: Instance): seq<Bytes> {
    if events == [] then []
    else
      var last := events[|events| - 1];
      DataOf(events[..|events| - 1], k) + (if last.Data? && last.k == k then [last.data] else [])
  }

  predicate Concerns(e: Event, k: Instance) { (e.Data? || e.Close?) && e.k == k }

  /** The close event of an instance is its last one, hence also its only one. */
  ghost predicate CloseIsLast(events: seq<Event>, k: Instance) {
    forall i, j | 0 <= i < j < |events| :: events[i] == Close(k) ==> !Concerns(events[j], k)
  }

  /** How much of the output has been forwarded: what is taken, but for the one in hand. */
  ghost predicate Delivered(w: Worker, data: seq<Bytes>) {
    && w.taken <= |w.output|
    && (w.phase.Holding? ==> w.taken > 0)
    && (if w.phase.Holding? then data == w.output[..w.taken - 1]
        else if w.phase.Failed? then data <= w.output
        else data == w.output[..w.taken])
  }

  ghost predicate WorkerOk(s: State, k: Instance)
    requires k in s.workers
  {
    && Delivered(s.workers[k], DataOf(s.events, k))
    && CloseIsLast(s.events, k)
    && (Close(k) in s.events ==> s.workers[k].phase.Finished?)
    && LeftOk(s, k)
  }

  /** An instance leaves its loop when the user stops it, or with all its output forwarded. */
  ghost predicate LeftOk(s: State, k: Instance)
    requires k in s.workers
  {
    var w := s.workers[k];
    w.phase.Closing? || w.phase.Finished? ==>
      k in s.registry.stopped || (w.ended && w.taken == |w.output|)
  }

  ghost predicate Inv(s: State) {
    && s.shown <= |s.events|
    && (forall k :: k in s.workers ==> WorkerOk(s, k))
    && (forall e :: e in s.events && !e.Other? ==> e.k in s.workers)
  }

  lemma Snoc(events: seq<Event>, e: Event, k: Instance)
    ensures DataOf(events + [e], k) == DataOf(events, k) + (if e.Data? && e.k == k then [e.data] else [])
    ensures CloseIsLast(events, k) && (Concerns(e, k) ==> Close(k) !in events) ==> CloseIsLast(events + [e], k)
  {
    assert (events + [e])[..|events|] == events;
  }

  lemma {:induction false} NoData(events: seq<Event>, k: Instance)
    requires forall e :: e in events && !e.Other? ==> e.k != k
    ensures DataOf(events, k) == [] && CloseIsLast(events, k)
  {
    if events == [] {
    } else {
      var front := events[..|events| - 1];
      assert forall e :: e in front ==> e in events;
      NoData(front, k);
      assert events[|events| - 1] in events;
      assert events == front + [events[|events| - 1]];
      Snoc(front, events[|events| - 1], k);
    }
  }

  lemma WorkerStep(s: State, a: Action, k: Instance)
    requires Inv(s) && Enabled(s, a) && k in Apply(s, a).workers
    ensures WorkerOk(Apply(s, a), k)
  {
    match a
    case Start(l, name) => if k == l { NoData(s.events, k); } else { assert WorkerOk(s, k); }
    case Produce(l, data) => ProduceStep(s, l, data, k);
    case Forward(l) => if s.open { ForwardStep(s, l, k); } else { FailStep(s, l, k); }
    case ForwardClose(l) => CloseStep(s, l, k);
    case OtherEvent(text) => OtherStep(s, text, k);
    case Take(l) => TakeStep(s, l, k);
    case WriteFails(l) => FailStep(s, l, k);
    case _ => assert WorkerOk(s, k);
  }

  lemma ProduceStep(s: State, l: Instance, data: Bytes, k: Instance)
    requires Inv(s) && Enabled(s, Produce(l, data)) && k in s.workers
    ensures WorkerOk(Apply(s, Produce(l, data)), k)
  {
    assert WorkerOk(s, k);
    var w := s.workers[k];
    assert (w.output + [data])[..w.taken] == w.output[..w.taken];
  }

  lemma OtherStep(s: State, text: string, k: Instance)
    requires Inv(s) && k in s.workers
    ensures WorkerOk(s.(events := s.events + [Other(text)]), k)
  {
    assert WorkerOk(s, k);
    Snoc(s.events, Other(text), k);
  }

  lemma TakeStep(s: State, l: Instance, k: Instance)
    requires Inv(s) && Enabled(s, Take(l)) && k in s.workers
    ensures WorkerOk(Apply(s, Take(l)), k)
  {
    assert WorkerOk(s, k);
  }

  lemma FailStep(s: State, l: Instance, k: Instance)
    requires Inv(s) && l in s.workers && !s.workers[l].phase.Finished? && k in s.workers
    ensures WorkerOk(SetPhase(s, l, Failed), k)
  {
    assert WorkerOk(s, k);
  }

  lemma ForwardStep(s: State, l: Instance, k: Instance)
    requires Inv(s) && Enabled(s, Forward(l)) && s.open && k in s.workers
    ensures WorkerOk(Apply(s, Forward(l)), k)
  {
    assert WorkerOk(s, k) && WorkerOk(s, l);
    var w := s.workers[l];
    Snoc(s.events, Data(l, w.output[w.taken - 1]), k);
    if k == l { HandedOver(w, DataOf(s.events, l)); }
  }

  /** The output in hand goes behind the data forwarded before it. */
  lemma HandedOver(w: Worker, data: seq<Bytes>)
    requires Delivered(w, data) && w.phase.Holding?
    ensures Delivered(w.(phase := Polling), data + [w.output[w.taken - 1]])
  {
    assert w.output[..w.taken - 1] + [w.output[w.taken - 1]] == w.output[..w.taken];
  }

  lemma CloseStep(s: State, l: Instance, k: Instance)
    requires Inv(s) && Enabled(s, ForwardClose(l)) && k in s.workers
    ensures WorkerOk(Apply(s, ForwardClose(l)), k)
  {
    assert WorkerOk(s, k);
    Snoc(s.events, Close(l), k);
  }

  lemma StepKeepsInv(s: State, a: Action)
    requires Inv(s) && Enabled(s, a)
    ensures Inv(Apply(s, a))
  {
    forall k | k in Apply(s, a).workers ensures WorkerOk(Apply(s, a), k) { WorkerStep(s, a, k); }
  }

  lemma {:induction false} RunInv(r: seq<State>, i: nat)
    requires Run(r) && i < |r|
    ensures Inv(r[i])
  {
    if i == 0 {
    } else {
      RunInv(r, i - 1);
      assert StepAt(r, i);
      var a :| Happens(r[i - 1], a, r[i]);
      StepKeepsInv(r[i - 1], a);
    }
  }

  lemma {:induction false} DataOfPrefix(events: seq<Event>, n: nat, k: Instance)
    requires n <= |events|
    ensures DataOf(events[..n], k) <= DataOf(events, k)
  {
    if n < |events| {
      var front := events[..|events| - 1];
      DataOfPrefix(front, n, k);
      assert front[..n] == events[..n];
    } else {
      assert events[..n] == events;
    }
  }

  /** Shell output order: in what the browser has been sent, the data of one instance is a
      front part of its SSH output, and its close event comes at most once and last. */
  lemma OutputInOrder(r: seq<State>, i: nat, k: Instance)
    requires Run(r) && i < |r| && k in r[i].workers
    ensures r[i].shown <= |r[i].events|
    ensures DataOf(r[i].events[..r[i].shown], k) <= r[i].workers[k].output
    ensures CloseIsLast(r[i].events[..r[i].shown], k)
  {
    var s := r[i];
    RunInv(r, i);
    assert WorkerOk(s, k);
    DataOfPrefix(s.events, s.shown, k);
  }

  /** A close event means that everything taken from the channel was sent before it, which is
      the whole output of a channel that has ended, unless the user has stopped the instance. */
  lemma CloseAfterAll(r: seq<State>, i: nat, k: Instance)
    requires Run(r) && i < |r| && k in r[i].workers && Close(k) in r[i].events
    ensures r[i].workers[k].taken <= |r[i].workers[k].output|
    ensures DataOf(r[i].events, k) == r[i].workers[k].output[..r[i].workers[k].taken]
    ensures k !in r[i].registry.stopped ==>
              r[i].workers[k].ended && DataOf(r[i].events, k) == r[i].workers[k].output
  {
    RunInv(r, i);
    assert WorkerOk(r[i], k);
  }

  /** The steps of the worker of one instance. */
  predicate OwnStep(a: Action, k: Instance) {
    a == Take(k) || a == Forward(k) || a == WriteFails(k) || a == Leave(k) || a == ForwardClose(k)
  }

  /** What a worker still has to do. */
  function Work(w: Worker): int {
    3 * (|w.output| - w.taken) +
    (match w.phase
     case Holding => 4
     case Polling => 3
     case Closing => 1
     case Finished => 0
     case Failed => 0)
  }

  /** Every step of a worker leaves it with less to do, and no step of another one touches it;
      only new output gives it more. */
  lemma WorkersAdvance(s: State, a: Action, k: Instance)
    requires Enabled(s, a) && k in s.workers
    ensures k in Apply(s, a).workers
    ensures OwnStep(a, k) ==> Work(Apply(s, a).workers[k]) < Work(s.workers[k])
    ensures !OwnStep(a, k) && a != EndOutput(k) && (a.Produce? ==> a.k != k) ==> Apply(s, a).workers[k] == s.workers[k]
  {
  }

  /** A stop frees the name and tells its instance to leave, and changes no other; a start takes
      a free name for a new instance without output. */
  lemma StopDecides(s: State, name: Name)
    ensures var s' := Apply(s, Stop(name));
            && s'.workers == s.workers && s'.events == s.events && name !in s'.registry.shells
            && (forall n :: n != name && n in s.registry.shells ==>
                  n in s'.registry.shells && s'.registry.shells[n] == s.registry.shells[n])
            && s'.registry.stopped ==
               s.registry.stopped + (if name in s.registry.shells then {s.registry.shells[name]} else {})
  {
  }

  lemma StartDecides(s: State, k: Instance, name: Name)
    requires Enabled(s, Start(k, name))
    ensures Apply(s, Start(k, name)).registry.shells == s.registry.shells[name := k]
    ensures Apply(s, Start(k, name)).workers == s.workers[k := Worker(name, [], 0, false, Polling)]
  {
  }

  /** An instance whose input was closed can leave its loop whenever it has nothing in hand; the
      end of its output lets it leave once everything is taken. */
  lemma LeavesWhenTold(s: State, k: Instance)
    requires k in s.workers && s.workers[k].phase.Polling?
    ensures k in s.registry.stopped ==> Enabled(s, Leave(k))
    ensures Enabled(s, EndOutput(k)) ==>
              Apply(s, EndOutput(k)).workers[k] == s.workers[k].(ended := true) &&
              (s.workers[k].taken == |s.workers[k].output| ==> Enabled(Apply(s, EndOutput(k)), Leave(k)))
  {
  }

  /** The browser is shown one event after the other, until it has been shown all of them. */
  lemma ShowAdvances(s: State)
    ensures Enabled(s, Show) <==> s.shown < |s.events|
    ensures Enabled(s, Show) ==> Apply(s, Show).shown == s.shown + 1 && Apply(s, Show).events == s.events
  {
  }

  /** A worker that has nothing left to do has forwarded all its output so far and waits for
      more, or has sent its close event, or has failed. */
  lemma RestForwards(r: seq<State>, i: nat, k: Instance)
    requires Run(r) && i < |r| && k in r[i].workers && !r[i].workers[k].phase.Failed?
    requires !Enabled(r[i], Take(k)) && !Enabled(r[i], Forward(k)) && !Enabled(r[i], Leave(k))
    requires !Enabled(r[i], ForwardClose(k))
    ensures r[i].workers[k].phase.Polling? ==>
              DataOf(r[i].events, k) == r[i].workers[k].output && !r[i].workers[k].ended && k !in r[i].registry.stopped
    ensures r[i].workers[k].phase.Polling? || r[i].workers[k].phase.Finished?
  {
    RunInv(r, i);
    assert WorkerOk(r[i], k);
  }
}
