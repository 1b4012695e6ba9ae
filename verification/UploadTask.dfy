/** An upload task of the browser: the asynchronous upload function with its file guard, the
    controller around it that can be cancelled and closed at any time, and what its calls do
    to the disk on the other side.

    Between two awaits the code runs without interruption; whatever an await waits for may
    settle in any order with the user's cancel and close. A call of the REST interface is
    answered with a value or an error, or never, and what it does to the disk it does before
    the answer. The HTTP request of the transfer goes another way than the calls: the disk may
    see it late, and go on with it when the browser has given it up. */
module UploadTask {
  import opened Common

  datatype Status = Running | Error | Completed | Canceled

  /** The await at which the upload function stands. */
  datatype Await =
    | Placeholder                    // plain: the exclusive creation of the target
    | Preparing(zipped: Option<bool>, placed: Option<bool>)  // compressed: both results so far
    | Placed(ok: bool)               // plain: the creation has been answered
    | TokenFetch                     // the call that the transfer starts with
    | Sending                        // the HTTP request is out, the abort listener registered
    | Unzip                          // compressed: the unzip call
    | TempUnlink(unzipped: bool)     // compressed: the temporary file after the unzip
    | Both(target: bool, temp: bool) // compressed and closed: answers still to come
    | Release(fails: bool)           // the unlink of the target, then return or throw
    | Ended(fails: bool)             // function over, its promise not yet observed
    | Settled

  /** How the transfer's promise settles: rejected, resolved with the JSON object that names
      the file, or resolved with any other JSON text. */
  datatype Answer = Failed | Path | Text

  /** `guarded`, `unlinks`, `tempUnlinks`, `answer`, `unzipped` and `done` are history: was the
      creation of the target answered with success, how often was its unlink sent, how often
      that of the temporary file, how did the transfer and the unzip call end, and was the
      guard switched off as done. */
  datatype Task = Task(
    compress: bool,
    at: Await,
    fileGuard: bool,
    status: Status,
    isClosed: bool,
    aborted: bool,
    guarded: bool,
    unlinks: nat,
    tempUnlinks: nat,
    answer: Answer,
    unzipped: bool,
    done: bool)

  datatype Event =
    | PlaceholderReply(ok: bool)
    | ZipDone(ok: bool)
    | Resume                         // the continuation after the creation, or after both results
    | TokenReply(ok: bool)
    | TransferDone(answer: Answer)
    | UnzipReply(ok: bool)
    | TempUnlinkReply
    | UnlinkReply
    | Observe                        // then or catch of the controller
    | Cancel
    | Close

  /** The user's events are always possible, the others while something waits for them. */
  predicate Possible(t: Task, e: Event) {
    match e
    case PlaceholderReply(_) => t.at.Placeholder? || (t.at.Preparing? && t.at.placed.None?)
    case ZipDone(_) => t.at.Preparing? && t.at.zipped.None?
    case Resume => t.at.Placed? || (t.at.Preparing? && t.at.zipped.Some? && t.at.placed.Some?)
    case TokenReply(_) => t.at.TokenFetch?
    case TransferDone(_) => t.at.Sending?
    case UnzipReply(_) => t.at.Unzip?
    case TempUnlinkReply => t.at.TempUnlink? || (t.at.Both? && t.at.temp)
    case UnlinkReply => t.at.Release? || (t.at.Both? && t.at.target)
    case Observe => t.at.Ended?
    case Cancel => true
    case Close => true
  }

  function NewTask(compress: bool): Task {
    Task(compress, if compress then Preparing(None, None) else Placeholder,
         false, Running, false, false, false, 0, 0, Failed, false, false)
  }

  /** Only switching the guard off sends an unlink of the target, and it sends one. */
  predicate GuardSpent(t: Task, t': Task) {
    t'.unlinks == t.unlinks || (t.fileGuard && t'.unlinks == t.unlinks + 1 && !t'.fileGuard)
  }

  /** What every step keeps: the path, the guard's discipline, and that a cancel is for good. */
  predicate Follows(t: Task, t': Task) {
    t'.compress == t.compress && GuardSpent(t, t') && (t.aborted ==> t'.aborted)
  }

  /** Switch the guard off and send the unlink, if the guard is on. */
  function Released(t: Task): (u: Task)
    ensures Follows(t, u)
  {
    if t.fileGuard then t.(fileGuard := false, unlinks := t.unlinks + 1) else t
  }

  /** `await releaseFileGuard()`, then return or throw. */
  function ReleaseThen(t: Task, fails: bool): (u: Task)
    ensures Follows(t, u)
  {
    Released(t).(at := if t.fileGuard then Release(fails) else Ended(fails))
  }

  /** The abort reaches the transfer only through the listener, and only the first one does:
      the transfer is rejected, and the function throws with the guard off already. */
  function CancelStep(t: Task): (u: Task)
    ensures Follows(t, u)
  {
    Released(t.(status := Canceled, aborted := true,
                at := if t.at.Sending? && !t.aborted then Ended(true) else t.at))
  }

  function PlaceholderStep(t: Task, ok: bool): (u: Task)
    requires Possible(t, PlaceholderReply(ok))
    ensures Follows(t, u)
  {
    t.(fileGuard := ok || t.fileGuard, guarded := ok || t.guarded,
       at := if t.at.Placeholder? then Placed(ok) else t.at.(placed := Some(ok)))
  }

  /** After the creation: give up, or start the transfer. */
  function ResumeStep(t: Task): (u: Task)
    requires Possible(t, Resume)
    ensures Follows(t, u)
  {
    var placed := if t.at.Placed? then t.at.ok else t.at.placed.value;
    var zipped := if t.at.Placed? then true else t.at.zipped.value;
    if !placed then t.(at := Ended(true))
    else if t.status != Running then ReleaseThen(t, false)
    else if !zipped then ReleaseThen(t, true)
    else t.(at := TokenFetch)
  }

  function TokenStep(t: Task, ok: bool): (u: Task)
    ensures Follows(t, u)
  {
    if ok then t.(at := Sending) else ReleaseThen(t, true)
  }

  /** Unlinks of the temporary file: the answer must have named it. */
  function TempUnlinked(t: Task): nat {
    if t.answer.Path? then t.tempUnlinks + 1 else t.tempUnlinks
  }

  function TransferStep(t: Task, answer: Answer): (u: Task)
    ensures Follows(t, u)
  {
    var u := t.(answer := answer);
    if answer.Failed? then ReleaseThen(u, true)
    else if !t.compress then u.(fileGuard := false, done := true, at := Ended(false))
    else if t.status != Running then
      Released(u).(tempUnlinks := TempUnlinked(u), at := Both(t.fileGuard, true))
    else u.(at := Unzip)
  }

  function TempUnlinkStep(t: Task): (u: Task)
    requires Possible(t, TempUnlinkReply)
    ensures Follows(t, u)
  {
    if t.at.Both? then t.(at := if t.at.target then Both(true, false) else Ended(false))
    else if t.at.unzipped then t.(fileGuard := false, done := true, at := Ended(false))
    else ReleaseThen(t, true)
  }

  function UnlinkStep(t: Task): (u: Task)
    requires Possible(t, UnlinkReply)
    ensures Follows(t, u)
  {
    if t.at.Both? then t.(at := if t.at.temp then Both(false, true) else Ended(false))
    else t.(at := Ended(t.at.fails))
  }

  function Step(t: Task, e: Event): (u: Task)
    requires Possible(t, e)
    ensures Follows(t, u)
  {
    match e
    case PlaceholderReply(ok) => PlaceholderStep(t, ok)
    case ZipDone(ok) => t.(at := t.at.(zipped := Some(ok)))
    case Resume => ResumeStep(t)
    case TokenReply(ok) => TokenStep(t, ok)
    case TransferDone(answer) => TransferStep(t, answer)
    case UnzipReply(ok) => t.(tempUnlinks := TempUnlinked(t), unzipped := ok, at := TempUnlink(ok))
    case TempUnlinkReply => TempUnlinkStep(t)
    case UnlinkReply => UnlinkStep(t)
    case Observe =>
      t.(at := Settled, status := if t.status != Running then t.status else if t.at.fails then Error else Completed)
    case Cancel => CancelStep(t)
    case Close => (if t.status == Completed then t else CancelStep(t)).(isClosed := true)
  }

  // ---------- The task as an object ----------

  class UploadController {
    const compress: bool
    var at: Await
    var fileGuard: bool
    var status: Status
    var isClosed: bool
    var aborted: bool
    var guarded: bool
    var unlinks: nat
    var tempUnlinks: nat
    var answer: Answer
    var unzipped: bool
    var done: bool

    function View(): Task
      reads this
    {
      Task(compress, at, fileGuard, status, isClosed, aborted, guarded, unlinks, tempUnlinks, answer, unzipped, done)
    }

    /** The upload function starts at once and runs up to its first await. */
    constructor (compress: bool)
      ensures View() == NewTask(compress)
    {
      this.compress := compress;
      at := if compress then Preparing(None, None) else Placeholder;
      fileGuard, status, isClosed, aborted := false, Running, false, false;
      guarded, unlinks, tempUnlinks, answer, unzipped, done := false, 0, 0, Failed, false, false;
    }

    method ReleaseFileGuard() returns (sent: bool)
      modifies this`fileGuard, this`unlinks
      ensures View() == Released(old(View())) && sent == old(fileGuard)
    {
      sent := fileGuard;
      if fileGuard {
        fileGuard := false;
        unlinks := unlinks + 1;
      }
    }

    method DoCancel()
      modifies this
      ensures View() == Step(old(View()), Cancel)
      ensures status == Canceled && aborted && !fileGuard && isClosed == old(isClosed)
      ensures unlinks == old(unlinks) + if old(fileGuard) then 1 else 0
      ensures at == if old(at).Sending? && !old(aborted) then Ended(true) else old(at)
    {
      status := Canceled;
      if at.Sending? && !aborted { at := Ended(true); }
      aborted := true;
      var _ := ReleaseFileGuard();
    }

    method DoClose()
      modifies this
      ensures View() == Step(old(View()), Close)
      ensures isClosed
      ensures old(status) != Completed ==> status == Canceled && aborted && !fileGuard
      ensures old(status) == Completed ==> status == Completed && aborted == old(aborted) && unlinks == old(unlinks)
    {
      if status != Completed { DoCancel(); }
      isClosed := true;
    }

    method OnPlaceholderReply(ok: bool)
      requires Possible(View(), PlaceholderReply(ok))
      modifies this
      ensures View() == Step(old(View()), PlaceholderReply(ok))
    {
      if ok { fileGuard, guarded := true, true; }
      at := if at.Placeholder? then Placed(ok) else at.(placed := Some(ok));
    }

    method OnZipDone(ok: bool)
      requires Possible(View(), ZipDone(ok))
      modifies this
      ensures View() == Step(old(View()), ZipDone(ok))
      ensures at == Preparing(Some(ok), old(at).placed) && fileGuard == old(fileGuard)
    {
      at := at.(zipped := Some(ok));
    }

    method ReleaseAndEnd(fails: bool)
      modifies this
      ensures View() == ReleaseThen(old(View()), fails)
    {
      var sent := ReleaseFileGuard();
      at := if sent then Release(fails) else Ended(fails);
    }

    method OnResume()
      requires Possible(View(), Resume)
      modifies this
      ensures View() == Step(old(View()), Resume)
    {
      var placed := if at.Placed? then at.ok else at.placed.value;
      if !placed { at := Ended(true); return; }
      if status != Running { ReleaseAndEnd(false); return; }
      if at.Preparing? && !at.zipped.value { ReleaseAndEnd(true); return; }
      at := TokenFetch;
    }

    method OnTokenReply(ok: bool)
      requires Possible(View(), TokenReply(ok))
      modifies this
      ensures View() == Step(old(View()), TokenReply(ok))
    {
      if ok { at := Sending; } else { ReleaseAndEnd(true); }
    }

    method OnTransferDone(verdict: Answer)
      requires Possible(View(), TransferDone(verdict))
      modifies this
      ensures View() == Step(old(View()), TransferDone(verdict))
    {
      answer := verdict;
      if verdict.Failed? { ReleaseAndEnd(true); return; }
      if !compress {
        fileGuard, done := false, true;
        at := Ended(false);
        return;
      }
      if status != Running {
        var sent := ReleaseFileGuard();
        if verdict.Path? { tempUnlinks := tempUnlinks + 1; }
        at := Both(sent, true);
      } else {
        at := Unzip;
      }
    }

    method OnUnzipReply(ok: bool)
      requires Possible(View(), UnzipReply(ok))
      modifies this
      ensures View() == Step(old(View()), UnzipReply(ok))
    {
      if answer.Path? { tempUnlinks := tempUnlinks + 1; }
      unzipped := ok;
      at := TempUnlink(ok);
    }

    method OnTempUnlinkReply()
      requires Possible(View(), TempUnlinkReply)
      modifies this
      ensures View() == Step(old(View()), TempUnlinkReply)
    {
      if at.Both? {
        at := if at.target then Both(true, false) else Ended(false);
      } else if at.unzipped {
        fileGuard, done := false, true;
        at := Ended(false);
      } else {
        ReleaseAndEnd(true);
      }
    }

    method OnUnlinkReply()
      requires Possible(View(), UnlinkReply)
      modifies this
      ensures View() == Step(old(View()), UnlinkReply)
    {
      if at.Both? {
        at := if at.temp then Both(false, true) else Ended(false);
      } else {
        at := Ended(at.fails);
      }
    }

    method OnSettled()
      requires Possible(View(), Observe)
      modifies this
      ensures View() == Step(old(View()), Observe)
    {
      if status == Running { status := if at.fails then Error else Completed; }
      at := Settled;
    }
  }

  // ---------- The disk ----------

  /** A piece of work on the other side, from the request to the last byte written. It may be
      refused without a file being opened; `json` says whether the refusal is a JSON text. */
  datatype Work = Unsent | Requested | Refused(json: bool) | Open | Written(whole: bool)
  {
    predicate Opened() { Open? || Written? }
  }

  /** What the upload's own calls have put at a path: nothing, its placeholder, or data. */
  datatype OnDisk = Nothing | Stub(whole: bool) | Data(whole: bool)

  /** `made` says whether the creation has made the target, and made it whole. `openings`
      counts how often the target was created, truncated or opened for writing. */
  datatype Disk = Disk(
    made: Option<bool>,
    transfer: Work,
    unzip: Work,
    target: OnDisk,
    temp: OnDisk,
    removed: nat,
    tempRemoved: nat,
    openings: nat)

  datatype Effect =
    | Make(whole: bool)
    | Refuse(json: bool)
    | OpenFile
    | WriteEnd(whole: bool)
    | UnzipRefuse
    | UnzipOpen
    | UnzipEnd(whole: bool)
    | RemoveTarget
    | RemoveTemp

  predicate CreationPending(t: Task) { t.at.Placeholder? || (t.at.Preparing? && t.at.placed.None?) }

  /** The unzip call needs the path of a file that the transfer has written, and unpacks the
      whole of it only if that is whole. */
  predicate DiskPossible(t: Task, d: Disk, e: Effect) {
    match e
    case Make(_) => CreationPending(t) && d.made.None?
    case Refuse(_) => d.transfer.Requested?
    case OpenFile => d.transfer.Requested?
    case WriteEnd(_) => d.transfer.Open?
    case UnzipRefuse => d.unzip.Requested?
    case UnzipOpen => d.unzip.Requested? && t.answer.Path?
    case UnzipEnd(whole) => d.unzip.Open? && (whole ==> d.transfer == Written(true))
    case RemoveTarget => d.removed < t.unlinks
    case RemoveTemp => d.tempRemoved < t.tempUnlinks
  }

  /** The target is opened, as an empty file or over what is there. */
  function TargetOpened(d: Disk): Disk {
    d.(target := Data(false), openings := d.openings + 1)
  }

  /** What is written goes to the open file, which an unlink may have taken off its path. */
  function Finished(file: OnDisk, whole: bool): OnDisk {
    if file.Data? then Data(whole) else file
  }

  function DiskStep(t: Task, d: Disk, e: Effect): Disk
    requires DiskPossible(t, d, e)
  {
    match e
    case Make(whole) => d.(made := Some(whole), target := Stub(whole), openings := d.openings + 1)
    case Refuse(json) => d.(transfer := Refused(json))
    case OpenFile =>
      if t.compress then d.(transfer := Open, temp := Data(false)) else TargetOpened(d).(transfer := Open)
    case WriteEnd(whole) =>
      if t.compress then d.(transfer := Written(whole), temp := Finished(d.temp, whole))
      else d.(transfer := Written(whole), target := Finished(d.target, whole))
    case UnzipRefuse => d.(unzip := Refused(false))
    case UnzipOpen => TargetOpened(d).(unzip := Open)
    case UnzipEnd(whole) => d.(unzip := Written(whole), target := Finished(d.target, whole))
    case RemoveTarget => d.(removed := d.removed + 1, target := Nothing)
    case RemoveTemp => d.(tempRemoved := d.tempRemoved + 1, temp := Nothing)
  }

  /** An answer comes after what the call has done, and says so if it says success. A transfer
      is also answered by a refusal that is a JSON text, since nobody looks at the status. */
  predicate Truthful(d: Disk, e: Event) {
    match e
    case PlaceholderReply(ok) => ok ==> d.made == Some(true)
    case TransferDone(Path) => d.transfer.Written?
    case TransferDone(Text) => d.transfer == Refused(true)
    case UnzipReply(ok) => (d.unzip.Refused? || d.unzip.Written?) && (ok <==> d.unzip == Written(true))
    case _ => true
  }

  /** The requests that a step of the browser sends. */
  function Requests(t: Task, t': Task, d: Disk): Disk {
    d.(transfer := if t.at.TokenFetch? && t'.at.Sending? then Requested else d.transfer,
       unzip := if t.at.Sending? && t'.at.Unzip? then Requested else d.unzip)
  }

  // ---------- Every run ----------

  datatype State = State(task: Task, disk: Disk)

  datatype Action = Browser(event: Event) | OnServer(effect: Effect)

  predicate Enabled(s: State, a: Action) {
    match a
    case Browser(e) => Possible(s.task, e) && Truthful(s.disk, e)
    case OnServer(e) => DiskPossible(s.task, s.disk, e)
  }

  function Apply(s: State, a: Action): State
    requires Enabled(s, a)
  {
    match a
    case Browser(e) => State(Step(s.task, e), Requests(s.task, Step(s.task, e), s.disk))
    case OnServer(e) => s.(disk := DiskStep(s.task, s.disk, e))
  }

  function NewState(compress: bool): State {
    State(NewTask(compress), Disk(None, Unsent, Unsent, Nothing, Nothing, 0, 0, 0))
  }

  /** Some order of events and effects, each possible when it happens. */
  ghost predicate Run(r: seq<State>, compress: bool) {
    && |r| > 0
    && r[0] == NewState(compress)
    && Steps(r)
  }

  /** A stretch of a run. */
  ghost predicate Steps(r: seq<State>) { forall i :: 0 < i < |r| ==> StepAt(r, i) }

  ghost predicate StepAt(r: seq<State>, i: int)
    requires 0 < i < |r|
  {
    Leads(r[i - 1], r[i])
  }

  ghost predicate Leads(s: State, s': State) { exists a :: Happens(s, a, s') }

  predicate Happens(s: State, a: Action, s': State) { Enabled(s, a) && s' == Apply(s, a) }

  predicate Over(t: Task) { t.at.Ended? || t.at.Settled? }

  // ---------- Invariant of the browser's side ----------

  /** The awaits behind the answer to the creation. */
  predicate Behind(t: Task) { !t.at.Placeholder? && !t.at.Preparing? && !t.at.Placed? }

  /** The plain and the compressed path have awaits of their own. */
  predicate OnPath(t: Task) {
    && (t.at.Placeholder? || t.at.Placed? ==> !t.compress)
    && (t.at.Preparing? || t.at.Unzip? || t.at.TempUnlink? || t.at.Both? ==> t.compress)
    && (t.at.Both? ==> t.at.target || t.at.temp)
  }

  predicate GuardOk(t: Task) {
    && (t.fileGuard ==> t.guarded && t.unlinks == 0)
    && t.unlinks <= 1
    && (t.unlinks == 1 ==> t.guarded)
    && (t.guarded && !t.fileGuard ==> t.unlinks == 1 || t.done)
    && (Over(t) || t.at.Release? || t.at.Both? ==> !t.fileGuard)
    && (t.at.Placeholder? || (t.at.Preparing? && t.at.placed != Some(true)) || t.at == Placed(false) ==> !t.guarded)
    && ((t.at.Preparing? && t.at.placed == Some(true)) || t.at == Placed(true) ==> t.guarded)
    && (Behind(t) && !Over(t) ==> t.guarded)
  }

  /** The transfer has not been answered. */
  predicate Unanswered(t: Task) { !Behind(t) || t.at.TokenFetch? || t.at.Sending? }

  /** A temporary file is unlinked once if the transfer was answered with its name. */
  predicate TempOk(t: Task) {
    && (Unanswered(t) ==> t.answer.Failed?)
    && (t.at.Unzip? || t.at.TempUnlink? || t.at.Both? ==> !t.answer.Failed?)
    && (!t.answer.Failed? ==> t.guarded)
    && t.tempUnlinks == (if t.compress && t.answer.Path? && !t.at.Unzip? then 1 else 0)
    && (t.unzipped ==> t.compress && !t.answer.Failed?)
    && (t.at.TempUnlink? ==> t.unzipped == t.at.unzipped)
    && (t.at.Unzip? ==> !t.unzipped)
  }

  /** An unlink by the function itself comes with a failure or with a cancelled task. */
  predicate StatusOk(t: Task) {
    && (t.aborted <==> t.status == Canceled)
    && (t.status == Running && t.unlinks == 1 ==> (t.at.Release? || t.at.Ended?) && t.at.fails)
    && (t.status == Running && t.at.Ended? && !t.at.fails ==> t.done && t.unlinks == 0)
    && (t.status == Running ==> !t.at.Both? && !(t.at.Release? && !t.at.fails) && !t.at.Settled?)
    && (t.status == Completed || t.status == Error ==> t.at.Settled?)
    && (t.status == Completed ==> t.done && t.unlinks == 0)
  }

  /** The guard is switched off as done at the end of a path that has succeeded. */
  predicate DoneOk(t: Task) {
    && (t.done ==> Over(t) && Succeeded(t))
    && (t.status == Error || (t.at.Ended? && t.at.fails) ==> !t.done)
  }

  predicate Succeeded(t: Task) { if t.compress then t.unzipped else !t.answer.Failed? }

  predicate TaskInv(t: Task) { OnPath(t) && GuardOk(t) && TempOk(t) && StatusOk(t) && DoneOk(t) }

  lemma PathStep(t: Task, e: Event)
    requires TaskInv(t) && Possible(t, e)
    ensures OnPath(Step(t, e))
  {
    if e.Resume? { PathResume(t); }
  }

  lemma PathResume(t: Task)
    requires TaskInv(t) && Possible(t, Resume)
    ensures OnPath(ResumeStep(t))
  {
  }

  lemma GuardStep(t: Task, e: Event)
    requires TaskInv(t) && Possible(t, e)
    ensures GuardOk(Step(t, e))
  {
    if e.Resume? { GuardResume(t); } else if e.TransferDone? { GuardTransfer(t, e.answer); }
  }

  lemma GuardTransfer(t: Task, answer: Answer)
    requires TaskInv(t) && Possible(t, TransferDone(answer))
    ensures GuardOk(TransferStep(t, answer))
  {
  }

  lemma GuardResume(t: Task)
    requires TaskInv(t) && Possible(t, Resume)
    ensures GuardOk(ResumeStep(t))
  {
  }

  lemma TempStep(t: Task, e: Event)
    requires TaskInv(t) && Possible(t, e)
    ensures TempOk(Step(t, e))
  {
    if e.Resume? {
      TempResume(t);
    } else if e.TransferDone? {
      TempTransfer(t, e.answer);
    } else if e.Cancel? || e.Close? {
      TempCancel(t, e);
    }
  }

  lemma TempCancel(t: Task, e: Event)
    requires TaskInv(t) && (e.Cancel? || e.Close?)
    ensures TempOk(Step(t, e))
  {
  }

  lemma TempTransfer(t: Task, answer: Answer)
    requires TaskInv(t) && Possible(t, TransferDone(answer))
    ensures TempOk(TransferStep(t, answer))
  {
  }

  lemma TempResume(t: Task)
    requires TaskInv(t) && Possible(t, Resume)
    ensures TempOk(ResumeStep(t))
  {
  }

  lemma StatusStep(t: Task, e: Event)
    requires TaskInv(t) && Possible(t, e)
    ensures StatusOk(Step(t, e))
  {
    if e.Resume? { StatusResume(t); } else if e.TransferDone? { StatusTransfer(t, e.answer); }
  }

  lemma StatusResume(t: Task)
    requires TaskInv(t) && Possible(t, Resume)
    ensures StatusOk(ResumeStep(t))
  {
  }

  lemma StatusTransfer(t: Task, answer: Answer)
    requires TaskInv(t) && Possible(t, TransferDone(answer))
    ensures StatusOk(TransferStep(t, answer))
  {
  }

  lemma DoneStep(t: Task, e: Event)
    requires TaskInv(t) && Possible(t, e)
    ensures DoneOk(Step(t, e))
  {
  }

  lemma TaskStep(t: Task, e: Event)
    requires TaskInv(t) && Possible(t, e)
    ensures TaskInv(Step(t, e))
  {
    PathStep(t, e);
    GuardStep(t, e);
    TempStep(t, e);
    StatusStep(t, e);
    DoneStep(t, e);
  }

  // ---------- Invariant of the disk ----------

  /** The file that goes to the target is opened by the transfer or by the unzip call. */
  function ToTarget(t: Task, d: Disk): Work { if t.compress then d.unzip else d.transfer }

  /** The target is the placeholder until it is unlinked or opened again; as long as no unlink
      has taken effect, it shows what was written to it last. */
  predicate TargetOk(t: Task, d: Disk) {
    && (d.target.Stub? <==> d.made.Some? && d.removed == 0 && !ToTarget(t, d).Opened())
    && (d.target.Stub? ==> Some(d.target.whole) == d.made)
    && (d.removed == 0 && ToTarget(t, d).Opened() ==> d.target == Data(ToTarget(t, d) == Written(true)))
    && d.removed <= t.unlinks
  }

  predicate TempFileOk(t: Task, d: Disk) {
    && (d.temp.Data? <==> t.compress && d.transfer.Opened() && d.tempRemoved == 0)
    && !d.temp.Stub?
    && d.tempRemoved <= t.tempUnlinks
  }

  /** What the browser has been told is so. */
  predicate LinkOk(t: Task, d: Disk) {
    && (t.guarded ==> d.made == Some(true))
    && (!d.transfer.Unsent? ==> t.guarded && Behind(t) && !t.at.TokenFetch?)
    && (t.at.Sending? ==> !d.transfer.Unsent?)
    && (t.answer.Path? ==> d.transfer.Written?)
    && (t.answer.Text? ==> d.transfer == Refused(true))
    && (!d.unzip.Unsent? ==> t.compress && !t.answer.Failed?)
    && (d.unzip.Opened() ==> t.answer.Path?)
    && (d.unzip.Requested? || d.unzip.Open? ==> t.at.Unzip?)
    && (t.at.Unzip? ==> !d.unzip.Unsent?)
    && (t.unzipped ==> d.unzip == Written(true))
  }

  predicate Inv(s: State) {
    TaskInv(s.task) && TargetOk(s.task, s.disk) && TempFileOk(s.task, s.disk) && LinkOk(s.task, s.disk)
  }

  lemma BrowserLink(s: State, e: Event)
    requires Inv(s) && Enabled(s, Browser(e))
    ensures LinkOk(Apply(s, Browser(e)).task, Apply(s, Browser(e)).disk)
  {
    if e.TransferDone? {
      AnswerLink(s, e.answer);
    } else if e.Resume? {
      ResumeLink(s);
    } else if e.Cancel? || e.Close? {
      CancelLink(s, e);
    }
  }

  lemma AnswerLink(s: State, answer: Answer)
    requires Inv(s) && Enabled(s, Browser(TransferDone(answer)))
    ensures LinkOk(TransferStep(s.task, answer), Requests(s.task, TransferStep(s.task, answer), s.disk))
  {
  }

  lemma ResumeLink(s: State)
    requires Inv(s) && Enabled(s, Browser(Resume))
    ensures LinkOk(ResumeStep(s.task), s.disk)
  {
  }

  lemma CancelLink(s: State, e: Event)
    requires Inv(s) && (e.Cancel? || e.Close?)
    ensures LinkOk(Step(s.task, e), s.disk)
  {
  }

  /** What a step of the browser leaves alone. */
  lemma StepFrame(t: Task, e: Event)
    requires TaskInv(t) && Possible(t, e)
    ensures Step(t, e).compress == t.compress
    ensures t.unlinks <= Step(t, e).unlinks && t.tempUnlinks <= Step(t, e).tempUnlinks
  {
  }

  lemma BrowserDisk(s: State, e: Event)
    requires Inv(s) && Enabled(s, Browser(e))
    ensures TargetOk(Apply(s, Browser(e)).task, Apply(s, Browser(e)).disk)
    ensures TempFileOk(Apply(s, Browser(e)).task, Apply(s, Browser(e)).disk)
  {
    StepFrame(s.task, e);
    RequestsOnce(s, e);
  }

  /** A request goes out once: it has not been sent before. */
  lemma RequestsOnce(s: State, e: Event)
    requires Inv(s) && Enabled(s, Browser(e))
    ensures var d := Apply(s, Browser(e)).disk;
            || d == s.disk
            || (d == s.disk.(transfer := Requested) && s.disk.transfer.Unsent?)
            || (d == s.disk.(unzip := Requested) && s.disk.unzip.Unsent?)
  {
  }

  lemma ServerKeeps(s: State, e: Effect)
    requires Inv(s) && Enabled(s, OnServer(e))
    ensures Inv(Apply(s, OnServer(e)))
  {
  }

  lemma StepKeepsInv(s: State, a: Action)
    requires Inv(s) && Enabled(s, a)
    ensures Inv(Apply(s, a))
  {
    match a
    case Browser(e) =>
      TaskStep(s.task, e);
      BrowserLink(s, e);
      BrowserDisk(s, e);
    case OnServer(e) =>
      ServerKeeps(s, e);
  }

  lemma LeadsKeepsInv(s: State, s': State)
    requires Inv(s) && Leads(s, s')
    ensures Inv(s')
  {
    var a :| Happens(s, a, s');
    StepKeepsInv(s, a);
  }

  lemma NewInv(compress: bool)
    ensures Inv(NewState(compress))
  {
  }

  lemma {:induction false} RunInv(r: seq<State>, compress: bool, i: nat)
    requires Run(r, compress) && i < |r|
    ensures Inv(r[i])
  {
    if i == 0 {
      NewInv(compress);
    } else {
      RunInv(r, compress, i - 1);
      assert StepAt(r, i);
      LeadsKeepsInv(r[i - 1], r[i]);
    }
  }

  // ---------- The guard ----------

  /** The guard over every run: the target is unlinked at most once, and only by a task whose
      own creation has made it and was answered with success; when the function is over, the
      guard is off, and a task that had it has unlinked the target or finished the upload. */
  lemma GuardDiscipline(r: seq<State>, compress: bool, i: nat)
    requires Run(r, compress) && i < |r|
    ensures r[i].task.unlinks <= 1
    ensures i > 0 && r[i - 1].task.unlinks < r[i].task.unlinks ==>
              r[i - 1].task.fileGuard && !r[i].task.fileGuard && r[i - 1].disk.made == Some(true)
    ensures Over(r[i].task) ==> !r[i].task.fileGuard
    ensures Over(r[i].task) && r[i].task.guarded ==> r[i].task.unlinks == 1 || r[i].task.done
  {
    RunInv(r, compress, i);
    if i > 0 {
      RunInv(r, compress, i - 1);
      UnlinkAt(r, compress, i);
    }
  }

  lemma UnlinkAt(r: seq<State>, compress: bool, i: nat)
    requires Run(r, compress) && 0 < i < |r|
    ensures GuardSpent(r[i - 1].task, r[i].task)
  {
    assert StepAt(r, i);
    var a :| Happens(r[i - 1], a, r[i]);
  }

  /** When the function is over and its unlink, if it sent one, has been carried out, the
      placeholder is still there exactly if its creation was carried out, even in part, but
      not answered with success, or if the transfer was refused with a JSON text and that was
      taken for the end of the upload. */
  lemma PlaceholderStays(r: seq<State>, compress: bool, i: nat)
    requires Run(r, compress) && i < |r|
    requires Over(r[i].task) && r[i].disk.removed == r[i].task.unlinks
    ensures r[i].disk.target.Stub? <==>
              || (r[i].disk.made.Some? && !r[i].task.guarded)
              || (r[i].task.done && r[i].task.unlinks == 0 && r[i].disk.transfer == Refused(true))
  {
    RunInv(r, compress, i);
  }

  /** The temporary file of a compressed upload is unlinked exactly once if the transfer was
      answered with its name, else never; so it stays exactly if it was opened and the transfer
      was not answered. */
  lemma TempFileStays(r: seq<State>, compress: bool, i: nat)
    requires Run(r, compress) && i < |r| && Over(r[i].task)
    ensures r[i].task.tempUnlinks == if compress && r[i].task.answer.Path? then 1 else 0
    ensures r[i].disk.tempRemoved == r[i].task.tempUnlinks ==>
              (r[i].disk.temp.Data? <==> compress && r[i].disk.transfer.Opened() && !r[i].task.answer.Path?)
  {
    RunInv(r, compress, i);
    PathKept(r, compress, i);
  }

  lemma {:induction false} PathKept(r: seq<State>, compress: bool, i: nat)
    requires Run(r, compress) && i < |r|
    ensures r[i].task.compress == compress
  {
    if i == 0 {
      assert r[0].task.compress == compress;
    } else {
      PathKept(r, compress, i - 1);
      assert StepAt(r, i);
      var a :| Happens(r[i - 1], a, r[i]);
    }
  }

  // ---------- Completed and failed uploads ----------

  /** The task has come to its end as completed, at some time. */
  predicate EndedWell(t: Task) { t.at.Settled? && !t.fileGuard && t.unlinks == 0 && t.done }

  /** A task that reaches completion has never unlinked its target and never will, whatever
      the user does afterwards. */
  lemma {:induction false} CompletedNeverUnlinks(r: seq<State>, compress: bool, i: nat, j: nat)
    requires Run(r, compress) && i < |r| && j < |r| && r[i].task.status == Completed
    ensures r[j].task.unlinks == 0
    ensures i <= j ==> EndedWell(r[j].task)
  {
    RunInv(r, compress, i);
    if j < i {
      UnlinksGrow(r, compress, j, i);
    } else if i < j {
      CompletedNeverUnlinks(r, compress, i, j - 1);
      assert StepAt(r, j);
      var a :| Happens(r[j - 1], a, r[j]);
    } else {
      assert EndedWell(r[j].task);
    }
  }

  lemma {:induction false} UnlinksGrow(r: seq<State>, compress: bool, i: nat, j: nat)
    requires Run(r, compress) && i <= j < |r|
    ensures r[i].task.unlinks <= r[j].task.unlinks
  {
    if i < j {
      UnlinksGrow(r, compress, i, j - 1);
      UnlinkAt(r, compress, j);
    }
  }

  /** What a completed upload has left at the target: a compressed one all its data, a plain
      one all its data exactly if the disk took the whole request, part of it if a write
      failed, and the placeholder if the request was refused with a JSON text. */
  lemma CompletedContent(r: seq<State>, compress: bool, i: nat)
    requires Run(r, compress) && i < |r| && r[i].task.status == Completed
    ensures compress ==> r[i].disk.target == Data(true)
    ensures !compress ==> (r[i].disk.target == Data(true) <==> r[i].disk.transfer == Written(true))
    ensures !compress ==> (r[i].disk.target == Data(false) <==> r[i].disk.transfer == Written(false))
    ensures !compress ==> (r[i].disk.target == Stub(true) <==> r[i].disk.transfer == Refused(true))
    ensures r[i].disk.target != Nothing && r[i].disk.target != Stub(false)
  {
    RunInv(r, compress, i);
    PathKept(r, compress, i);
  }

  /** A task that ends in an error has not finished its upload, and has unlinked its target if
      it ever had the guard. */
  lemma ErrorsCleanUp(r: seq<State>, compress: bool, i: nat)
    requires Run(r, compress) && i < |r| && r[i].task.status == Error
    ensures !r[i].task.done
    ensures r[i].task.unlinks == if r[i].task.guarded then 1 else 0
  {
    RunInv(r, compress, i);
  }

  /** The unlink was carried out when the target had been opened `base` times. */
  predicate Unlinked(d: Disk, base: nat) {
    d.removed == 1 && base <= d.openings && (d.target == Nothing <==> d.openings == base)
  }

  lemma UnlinkedStep(s: State, a: Action, base: nat)
    requires Inv(s) && Enabled(s, a) && Unlinked(s.disk, base)
    ensures Unlinked(Apply(s, a).disk, base)
  {
    if a.Browser? { RequestsOnce(s, a.event); }
  }

  lemma UnlinkingStep(s: State, a: Action)
    requires Inv(s) && Enabled(s, a) && s.disk.removed < Apply(s, a).disk.removed
    ensures Unlinked(Apply(s, a).disk, Apply(s, a).disk.openings)
  {
  }

  /** From the time that the unlink is carried out, there is no file at the target if and only
      if the other side has not opened the target again since then. */
  lemma {:induction false} FileAfterUnlink(r: seq<State>, compress: bool, i: nat, j: nat)
    requires Run(r, compress) && 0 < i <= j < |r|
    requires r[i - 1].disk.removed < r[i].disk.removed
    ensures Unlinked(r[j].disk, r[i].disk.openings)
  {
    RunInv(r, compress, j - 1);
    assert StepAt(r, j);
    var a :| Happens(r[j - 1], a, r[j]);
    if i < j {
      FileAfterUnlink(r, compress, i, j - 1);
      UnlinkedStep(r[j - 1], a, r[i].disk.openings);
    } else {
      UnlinkingStep(r[j - 1], a);
    }
  }

  // ---------- Cancelled uploads ----------

  /** Where an upload stands when it can be cancelled without being stopped: before the abort
      listener is registered, or behind the last look at the status. */
  predicate Unstoppable(t: Task) {
    if t.compress then t.at.Unzip? || t.at == TempUnlink(true) else t.at.TokenFetch?
  }

  /** Such a task, later on. */
  predicate Underway(t: Task) { Unstoppable(t) || (!t.compress && t.at.Sending?) }

  /** What holds of a task from its first cancel on. */
  predicate Aftermath(t: Task, unstoppable: bool) {
    t.aborted &&
    if unstoppable then
      || (Over(t) && (t.done <==> Succeeded(t)))
      || (!t.fileGuard && (Underway(t) || (t.at == TempUnlink(false) && !t.unzipped)))
    else
      !t.done && !Underway(t)
  }

  lemma FirstCancel(t: Task, e: Event)
    requires TaskInv(t) && Possible(t, e) && !t.aborted && Step(t, e).aborted
    ensures Aftermath(Step(t, e), t.done || Unstoppable(t))
  {
  }

  lemma AftermathStep(t: Task, e: Event, unstoppable: bool)
    requires TaskInv(t) && Possible(t, e) && Aftermath(t, unstoppable)
    ensures Aftermath(Step(t, e), unstoppable)
  {
    if e.Resume? { AftermathResume(t, unstoppable); }
    else if e.TransferDone? { AftermathTransfer(t, e.answer, unstoppable); }
  }

  lemma AftermathResume(t: Task, unstoppable: bool)
    requires TaskInv(t) && Possible(t, Resume) && Aftermath(t, unstoppable)
    ensures Aftermath(ResumeStep(t), unstoppable)
  {
  }

  lemma AftermathTransfer(t: Task, answer: Answer, unstoppable: bool)
    requires TaskInv(t) && Possible(t, TransferDone(answer)) && Aftermath(t, unstoppable)
    ensures Aftermath(TransferStep(t, answer), unstoppable)
  {
  }

  lemma {:induction false} AftermathLasts(r: seq<State>, compress: bool, i: nat, j: nat)
    requires Run(r, compress) && i < j < |r| && !r[i].task.aborted && r[i + 1].task.aborted
    ensures Aftermath(r[j].task, r[i].task.done || Unstoppable(r[i].task))
  {
    RunInv(r, compress, j - 1);
    assert StepAt(r, j);
    var a :| Happens(r[j - 1], a, r[j]);
    if j == i + 1 {
      if a.Browser? { FirstCancel(r[i].task, a.event); }
    } else {
      AftermathLasts(r, compress, i, j - 1);
      if a.Browser? { AftermathStep(r[j - 1].task, a.event, r[i].task.done || Unstoppable(r[i].task)); }
    }
  }

  /** When a cancelled upload is finished all the same: if and only if it was finished before,
      or its first cancel fell into the token call of a plain upload, or behind the answered
      transfer of a compressed one that was not cancelled then, and what was underway succeeded. */
  lemma CancelledIsDone(r: seq<State>, compress: bool, i: nat, j: nat)
    requires Run(r, compress) && i < j < |r| && !r[i].task.aborted && r[i + 1].task.aborted
    requires Over(r[j].task)
    ensures r[j].task.done <==> (r[i].task.done || Unstoppable(r[i].task)) && Succeeded(r[j].task)
  {
    AftermathLasts(r, compress, i, j);
    RunInv(r, compress, j);
  }

  // ---------- When a cancel is in time ----------

  /** The target can still be opened if the upload is cancelled now: its request is out and not
      yet carried out, or will go out in spite of the cancel. */
  predicate MayOpen(s: State) {
    if s.task.compress then s.disk.unzip.Requested? && s.task.answer.Path?
    else s.task.at.TokenFetch? || s.disk.transfer.Requested?
  }

  /** The state `s'` can follow on `s`, at once or later. */
  ghost predicate Ahead(s: State, s': State) {
    exists r :: |r| > 0 && Steps(r) && r[0] == s && r[|r| - 1] == s'
  }

  lemma AheadStart(s: State)
    ensures Ahead(s, s)
  {
    assert Steps([s]);
  }

  lemma AheadStep(s: State, s1: State, a: Action, s2: State)
    requires Ahead(s, s1) && Happens(s1, a, s2)
    ensures Ahead(s, s2)
  {
    var r :| |r| > 0 && Steps(r) && r[0] == s && r[|r| - 1] == s1;
    var r' := r + [s2];
    StepsLonger(r, a, s2);
    assert r'[0] == s && r'[|r'| - 1] == s2;
  }

  lemma StepsLonger(r: seq<State>, a: Action, s: State)
    requires |r| > 0 && Steps(r) && Happens(r[|r| - 1], a, s)
    ensures Steps(r + [s])
  {
    var r' := r + [s];
    forall i | 0 < i < |r'| ensures StepAt(r', i) {
      if i < |r| { assert StepAt(r, i); }
    }
  }

  /** A cancelled upload whose target is not opened any more. */
  predicate Sealed(s: State) {
    s.task.aborted && !MayOpen(s) && (s.disk.removed > 0 ==> s.disk.target == Nothing)
  }

  lemma SealedStep(s: State, a: Action)
    requires Inv(s) && Enabled(s, a) && Sealed(s)
    ensures Sealed(Apply(s, a))
  {
    match a
    case Browser(e) => SealedBrowser(s, e);
    case OnServer(e) =>
  }

  lemma SealedBrowser(s: State, e: Event)
    requires Inv(s) && Enabled(s, Browser(e)) && Sealed(s)
    ensures Sealed(Apply(s, Browser(e)))
  {
    if e.Resume? {
      SealedResume(s);
    } else if e.TransferDone? {
      SealedTransfer(s, e.answer);
    } else if e.Cancel? || e.Close? {
      SealedCancel(s, e);
    }
  }

  lemma SealedResume(s: State)
    requires Inv(s) && Enabled(s, Browser(Resume)) && Sealed(s)
    ensures Sealed(State(ResumeStep(s.task), s.disk)) && ResumeStep(s.task).at != TokenFetch
  {
  }

  lemma SealedTransfer(s: State, answer: Answer)
    requires Inv(s) && Enabled(s, Browser(TransferDone(answer))) && Sealed(s)
    ensures Sealed(State(TransferStep(s.task, answer), s.disk)) && TransferStep(s.task, answer).at != Unzip
  {
  }

  lemma SealedCancel(s: State, e: Event)
    requires Inv(s) && (e.Cancel? || e.Close?) && Sealed(s)
    ensures Sealed(State(Step(s.task, e), s.disk))
  {
  }

  lemma {:induction false} SealedLasts(r: seq<State>, k: nat)
    requires k < |r| && Steps(r) && Inv(r[0]) && Sealed(r[0])
    ensures Inv(r[k]) && Sealed(r[k]) && r[0].task.unlinks <= r[k].task.unlinks
  {
    if k == 0 {
    } else {
      SealedLasts(r, k - 1);
      assert StepAt(r, k);
      var a :| Happens(r[k - 1], a, r[k]);
      StepKeepsInv(r[k - 1], a);
      SealedStep(r[k - 1], a);
    }
  }

  /** The state right behind a cancel. */
  function Cancelled(s: State): State { Apply(s, Browser(Cancel)) }

  /** A file stays behind a cancel: the unlink is carried out, and there is a file again. */
  ghost predicate FileStays(s: State) {
    exists s' :: Ahead(Cancelled(s), s') && s'.disk.removed == 1 && s'.disk.target != Nothing
  }

  /** When a cancel is in time: with the guard on, a file can stay behind the first cancel if
      and only if the target's request is out and not yet carried out, or the token call of a
      plain upload is still to be answered. */
  lemma CancelInTime(s: State, compress: bool)
    requires Reachable(s, compress) && s.task.fileGuard && !s.task.aborted
    ensures FileStays(s) <==> MayOpen(s)
    ensures Cancelled(s).task.unlinks == 1
  {
    ReachableInv(s, compress);
    if MayOpen(s) {
      Reopened(s);
    } else {
      CancelSeals(s);
      SealedFile(s);
    }
  }

  /** A cancel before the guard is on is always in time. */
  lemma EarlyCancel(s: State, compress: bool)
    requires Reachable(s, compress) && !s.task.guarded && !s.task.aborted
    ensures !FileStays(s)
  {
    ReachableInv(s, compress);
    CancelSeals(s);
    SealedFile(s);
  }

  /** The user sees where a cancel may be too late: at the two awaits of a plain transfer, and
      at the unzip call of a compressed one. */
  lemma TooLateWhere(s: State, compress: bool)
    requires Reachable(s, compress) && s.task.fileGuard && !s.task.aborted && FileStays(s)
    ensures if s.task.compress then s.task.at.Unzip? else s.task.at.TokenFetch? || s.task.at.Sending?
  {
    ReachableInv(s, compress);
    CancelInTime(s, compress);
  }

  lemma CancelSeals(s: State)
    requires Inv(s) && !s.task.aborted && s.task.unlinks == 0 && !MayOpen(s)
    ensures Inv(Cancelled(s)) && Sealed(Cancelled(s))
  {
    StepKeepsInv(s, Browser(Cancel));
  }

  lemma SealedFile(s: State)
    requires Inv(Cancelled(s)) && Sealed(Cancelled(s))
    ensures !FileStays(s)
  {
    forall s' | Ahead(Cancelled(s), s') ensures s'.disk.removed == 1 ==> s'.disk.target == Nothing {
      var r :| |r| > 0 && Steps(r) && r[0] == Cancelled(s) && r[|r| - 1] == s';
      SealedLasts(r, |r| - 1);
    }
  }

  /** The run that leaves a file: the unlink is carried out first, then the target opened. */
  lemma Reopened(s: State)
    requires Inv(s) && s.task.fileGuard && !s.task.aborted && MayOpen(s)
    ensures FileStays(s)
  {
    var s1 := Cancelled(s);
    AheadStart(s1);
    if s.task.compress {
      RemoveThenOpen(s1, s1, UnzipOpen);
    } else if s.task.at.TokenFetch? {
      var s2 := Apply(s1, Browser(TokenReply(true)));
      AheadStep(s1, s1, Browser(TokenReply(true)), s2);
      RemoveThenOpen(s1, s2, OpenFile);
    } else {
      RemoveThenOpen(s1, s1, OpenFile);
    }
  }

  lemma RemoveThenOpen(s: State, s1: State, open: Effect)
    requires Ahead(s, s1) && s1.disk.removed == 0 && s1.task.unlinks == 1
    requires open == if s1.task.compress then UnzipOpen else OpenFile
    requires DiskPossible(s1.task, s1.disk, open)
    ensures exists s' :: Ahead(s, s') && s'.disk.removed == 1 && s'.disk.target != Nothing
  {
    var s2 := Apply(s1, OnServer(RemoveTarget));
    AheadStep(s, s1, OnServer(RemoveTarget), s2);
    var s3 := Apply(s2, OnServer(open));
    AheadStep(s, s2, OnServer(open), s3);
  }

  // ---------- Runs that show it ----------

  ghost predicate Reachable(s: State, compress: bool) {
    exists r :: Run(r, compress) && r[|r| - 1] == s
  }

  lemma ReachableInv(s: State, compress: bool)
    requires Reachable(s, compress)
    ensures Inv(s)
  {
    var r :| Run(r, compress) && r[|r| - 1] == s;
    RunInv(r, compress, |r| - 1);
  }

  lemma ReachableStart(compress: bool)
    ensures Reachable(NewState(compress), compress)
  {
    assert Run([NewState(compress)], compress);
  }

  lemma ReachableStep(s: State, compress: bool, a: Action, s': State)
    requires Reachable(s, compress) && Happens(s, a, s')
    ensures Reachable(s', compress)
  {
    var r :| Run(r, compress) && r[|r| - 1] == s;
    StepsLonger(r, a, s');
    assert Run(r + [s'], compress);
  }

  /** A plain upload whose placeholder is made and whose token call is out. */
  function Fetching(): State {
    State(NewTask(false).(at := TokenFetch, fileGuard := true, guarded := true),
          NewState(false).disk.(made := Some(true), target := Stub(true), openings := 1))
  }

  lemma FetchingReachable()
    ensures Reachable(Fetching(), false)
  {
    var s0 := NewState(false);
    ReachableStart(false);
    var s1 := Apply(s0, OnServer(Make(true)));
    ReachableStep(s0, false, OnServer(Make(true)), s1);
    var s2 := Apply(s1, Browser(PlaceholderReply(true)));
    ReachableStep(s1, false, Browser(PlaceholderReply(true)), s2);
    ReachableStep(s2, false, Browser(Resume), Fetching());
  }

  /** A cancel in the token call comes too early for the abort listener: the target is
      unlinked, and the file delivered behind the unlink. */
  lemma CancelledMayDeliver()
    ensures exists s :: Reachable(s, false) && s.task.status == Canceled && s.task.at.Settled? &&
                        s.task.done && s.disk.removed == 1 && s.disk.target == Data(true)
  {
    var s0 := Fetching();
    FetchingReachable();
    var s1 := Apply(s0, Browser(Cancel));
    ReachableStep(s0, false, Browser(Cancel), s1);
    var s2 := Apply(s1, Browser(TokenReply(true)));
    ReachableStep(s1, false, Browser(TokenReply(true)), s2);
    var s3 := LateDelivery(s2);
    var s4 := Apply(s3, Browser(TransferDone(Path)));
    ReachableStep(s3, false, Browser(TransferDone(Path)), s4);
    var s5 := Apply(s4, Browser(Observe));
    ReachableStep(s4, false, Browser(Observe), s5);
  }

  /** A cancel in the transfer gives it up, but its request may arrive behind the unlink. */
  lemma AbortedMayDeliver()
    ensures exists s :: Reachable(s, false) && s.task.status == Canceled && Over(s.task) &&
                        !s.task.done && s.disk.removed == 1 && s.disk.target == Data(true)
  {
    var s0 := Fetching();
    FetchingReachable();
    var s1 := Apply(s0, Browser(TokenReply(true)));
    ReachableStep(s0, false, Browser(TokenReply(true)), s1);
    var s2 := Apply(s1, Browser(Cancel));
    ReachableStep(s1, false, Browser(Cancel), s2);
    var s3 := LateDelivery(s2);
  }

  /** The unlink is carried out before the request opens the target. */
  lemma LateDelivery(s: State) returns (s': State)
    requires Reachable(s, false) && !s.task.compress
    requires s.task.unlinks == 1 && s.disk.removed == 0 && s.disk.transfer.Requested?
    ensures Reachable(s', false) && s'.task == s.task && s'.disk.removed == 1
    ensures s'.disk.target == Data(true) && s'.disk.transfer == Written(true)
  {
    var s1 := Apply(s, OnServer(RemoveTarget));
    ReachableStep(s, false, OnServer(RemoveTarget), s1);
    var s2 := Apply(s1, OnServer(OpenFile));
    ReachableStep(s1, false, OnServer(OpenFile), s2);
    s' := Apply(s2, OnServer(WriteEnd(true)));
    ReachableStep(s2, false, OnServer(WriteEnd(true)), s');
  }

  /** A refusal that is a JSON text makes a plain upload complete with its placeholder. */
  lemma RefusedMayComplete()
    ensures exists s :: Reachable(s, false) && s.task.status == Completed && s.disk.target == Stub(true)
  {
    var s0 := Fetching();
    FetchingReachable();
    var s1 := Apply(s0, Browser(TokenReply(true)));
    ReachableStep(s0, false, Browser(TokenReply(true)), s1);
    var s2 := Apply(s1, OnServer(Refuse(true)));
    ReachableStep(s1, false, OnServer(Refuse(true)), s2);
    var s3 := Apply(s2, Browser(TransferDone(Text)));
    ReachableStep(s2, false, Browser(TransferDone(Text)), s3);
    var s4 := Apply(s3, Browser(Observe));
    ReachableStep(s3, false, Browser(Observe), s4);
  }

  // ---------- What happened in a run ----------

  /** A run together with its steps: `acts[m]` leads from `r[m]` to `r[m + 1]`. */
  ghost predicate Trace(r: seq<State>, acts: seq<Action>, compress: bool) {
    && |r| == |acts| + 1
    && r[0] == NewState(compress)
    && forall m :: 0 <= m < |acts| ==> Took(r, acts, m)
  }

  ghost predicate Took(r: seq<State>, acts: seq<Action>, m: nat)
    requires m < |acts| && |r| == |acts| + 1
  {
    Happens(r[m], acts[m], r[m + 1])
  }

  lemma TraceIsRun(r: seq<State>, acts: seq<Action>, compress: bool)
    requires Trace(r, acts, compress)
    ensures Run(r, compress)
  {
    forall i | 0 < i < |r| ensures StepAt(r, i) { assert Took(r, acts, i - 1); }
  }

  /** How far the function of the task has come. */
  function Stage(at: Await): nat {
    match at
    case Placeholder => 0
    case Preparing(zipped, placed) => (if zipped.Some? then 1 else 0) + (if placed.Some? then 1 else 0)
    case Placed(_) => 2
    case TokenFetch => 3
    case Sending => 4
    case Unzip => 5
    case TempUnlink(_) => 6
    case Both(target, temp) => 8 - (if target then 1 else 0) - (if temp then 1 else 0)
    case Release(_) => 8
    case Ended(_) => 9
    case Settled => 10
  }

  /** Every answer takes the task forward and no cancel takes it back, and until it is settled
      there is an answer it waits for: ten answers at most, and it is at its end. */
  lemma TasksAdvance(t: Task, e: Event)
    requires TaskInv(t) && Possible(t, e)
    ensures Stage(Step(t, e).at) >= Stage(t.at)
    ensures !e.Cancel? && !e.Close? ==> Stage(Step(t, e).at) > Stage(t.at)
  {
    if e.Resume? {
      ResumeAdvances(t);
    } else if e.TransferDone? {
      TransferAdvances(t, e.answer);
    } else if e.TempUnlinkReply? || e.UnlinkReply? {
      UnlinksAdvance(t);
    }
  }

  lemma ResumeAdvances(t: Task)
    requires TaskInv(t) && Possible(t, Resume)
    ensures Stage(ResumeStep(t).at) > Stage(t.at)
  {
  }

  lemma TransferAdvances(t: Task, answer: Answer)
    requires TaskInv(t) && Possible(t, TransferDone(answer))
    ensures Stage(TransferStep(t, answer).at) > Stage(t.at)
  {
  }

  lemma UnlinksAdvance(t: Task)
    requires TaskInv(t)
    ensures Possible(t, TempUnlinkReply) ==> Stage(TempUnlinkStep(t).at) > Stage(t.at)
    ensures Possible(t, UnlinkReply) ==> Stage(UnlinkStep(t).at) > Stage(t.at)
  {
  }

  lemma SomethingAwaited(t: Task)
    requires TaskInv(t) && !t.at.Settled?
    ensures exists e: Event :: !e.Cancel? && !e.Close? && Possible(t, e)
  {
    var e: Event := match t.at
      case Placeholder => PlaceholderReply(true)
      case Preparing(zipped, placed) =>
        if zipped.None? then ZipDone(true) else if placed.None? then PlaceholderReply(true) else Resume
      case Placed(_) => Resume
      case TokenFetch => TokenReply(true)
      case Sending => TransferDone(Path)
      case Unzip => UnzipReply(true)
      case TempUnlink(_) => TempUnlinkReply
      case Both(target, _) => if target then UnlinkReply else TempUnlinkReply
      case Release(_) => UnlinkReply
      case Ended(_) => Observe
      case Settled => Cancel;
    assert Possible(t, e);
  }

  /** A cancel or a close of a task that is not completed cancels it, whenever it comes. */
  lemma CloseCancels(t: Task)
    ensures Step(t, Cancel).status == Canceled && Step(t, Cancel).aborted && !Step(t, Cancel).fileGuard
    ensures t.status != Completed ==> Step(t, Close) == Step(t, Cancel).(isClosed := true)
    ensures t.status == Completed ==> Step(t, Close) == t.(isClosed := true)
  {
  }

  /** An answer that makes the upload fail. */
  predicate Fails(e: Event) {
    || e == PlaceholderReply(false) || e == ZipDone(false) || e == TokenReply(false)
    || e == TransferDone(Failed) || e == UnzipReply(false)
  }

  /** The upload is about to fail or has failed, not having been cancelled. */
  predicate Failing(t: Task) {
    !t.aborted &&
    match t.at
    case Preparing(zipped, placed) => zipped == Some(false) || placed == Some(false)
    case Placed(ok) => !ok
    case TempUnlink(unzipped) => !unzipped
    case Release(fails) => fails
    case Ended(fails) => fails
    case Settled => t.status == Error
    case _ => false
  }

  lemma FailStep(t: Task, e: Event)
    requires TaskInv(t) && Possible(t, e)
    ensures Failing(Step(t, e)) ==> Fails(e) || Failing(t)
    ensures Fails(e) && !t.aborted ==> Failing(Step(t, e))
    ensures Failing(t) && !Step(t, e).aborted ==> Failing(Step(t, e))
  {
    if e.Resume? { FailResume(t); } else if e.TransferDone? { FailTransfer(t, e.answer); }
  }

  lemma FailResume(t: Task)
    requires TaskInv(t) && Possible(t, Resume)
    ensures Failing(ResumeStep(t)) <==> Failing(t)
  {
  }

  lemma FailTransfer(t: Task, answer: Answer)
    requires TaskInv(t) && Possible(t, TransferDone(answer))
    ensures Failing(TransferStep(t, answer)) <==> answer.Failed? && !t.aborted
  {
  }

  ghost predicate HadFailure(acts: seq<Action>, n: nat)
    requires n <= |acts|
  {
    exists m :: 0 <= m < n && acts[m].Browser? && Fails(acts[m].event)
  }

  /** A task that nobody cancels is failing exactly if one of its answers was a failure. */
  lemma {:induction false} FailingWhy(r: seq<State>, acts: seq<Action>, compress: bool, n: nat)
    requires Trace(r, acts, compress) && n < |r| && !r[n].task.aborted
    ensures Failing(r[n].task) <==> HadFailure(acts, n)
  {
    if n == 0 {
    } else {
      assert Took(r, acts, n - 1);
      TraceIsRun(r, acts, compress);
      RunInv(r, compress, n - 1);
      NotUncancelled(r[n - 1], acts[n - 1]);
      FailingWhy(r, acts, compress, n - 1);
      if acts[n - 1].Browser? { FailStep(r[n - 1].task, acts[n - 1].event); }
      assert HadFailure(acts, n) <==>
             HadFailure(acts, n - 1) || (acts[n - 1].Browser? && Fails(acts[n - 1].event));
    }
  }

  lemma NotUncancelled(s: State, a: Action)
    requires Enabled(s, a)
    ensures s.task.aborted ==> Apply(s, a).task.aborted
  {
  }

  /** How an upload ends that nobody cancels: completed, if and only if every answer it got was a
      success; else with an error. */
  lemma EndsAsAnswered(r: seq<State>, acts: seq<Action>, compress: bool, n: nat)
    requires Trace(r, acts, compress) && n < |r| && r[n].task.at.Settled? && !r[n].task.aborted
    ensures r[n].task.status == if HadFailure(acts, n) then Error else Completed
  {
    TraceIsRun(r, acts, compress);
    RunInv(r, compress, n);
    FailingWhy(r, acts, compress, n);
  }

  /** A failed compression sends nothing: the upload never asks for a transfer. */
  predicate ZipFailed(s: State) {
    && !s.task.done && s.disk.transfer.Unsent? && s.task.status != Completed
    && ((s.task.at.Preparing? && s.task.at.zipped == Some(false)) || s.task.at.Release? || Over(s.task))
  }

  lemma ZipFailedStep(s: State, a: Action)
    requires Inv(s) && Enabled(s, a) && ZipFailed(s)
    ensures ZipFailed(Apply(s, a))
  {
  }

  lemma {:induction false} FailedZipSendsNothing(r: seq<State>, acts: seq<Action>, compress: bool, i: nat, j: nat)
    requires Trace(r, acts, compress) && i < j < |r| && acts[i] == Browser(ZipDone(false))
    ensures ZipFailed(r[j])
  {
    assert Took(r, acts, j - 1);
    TraceIsRun(r, acts, compress);
    RunInv(r, compress, j - 1);
    if j > i + 1 {
      FailedZipSendsNothing(r, acts, compress, i, j - 1);
      ZipFailedStep(r[j - 1], acts[j - 1]);
    }
  }
}
