/** The asynchronous task manager (internal/infra/task/manager.go) as a step
    relation.

    Every goroutine of the source is cut at its accesses to the task table, so
    one event performs at most one read or one write of a row. `ok` in an event
    is the outcome of the store write that the event attempts. A run is a list
    of events in any order the guards allow. */
module TaskModel {
  import opened Options

  type TaskId = nat
  type WorkerId = nat
  type CancelId = nat

  datatype Status = Pending | Running | Completed | Failed | Cancelled

  /** A row of the task table. `external` is the external task ID; "" means
      that the task is executed in this process. */
  datatype Task = Task(
    kind: string, status: Status, progress: int, external: string,
    output: string, error: Option<string>, completedAt: Option<int>)
  {
    predicate IsTerminal() {
      status == Completed || status == Failed || status == Cancelled
    }
  }

  function NewTask(kind: string, status: Status, external: string): Task {
    Task(kind, status, 0, external, "", None, None)
  }

  function FailedWith(t: Task, code: string): Task {
    t.(status := Failed, error := Some(code))
  }

  function CompletedAt(t: Task, now: int): Task {
    t.(status := Completed, progress := 100, completedAt := Some(now))
  }

  /** Where a goroutine stands. The first four are executeTask's, the others
      pollExternalTask's. */
  datatype Phase =
    | Queued      // waiting for the semaphore or for stop
    | Holding     // slot acquired, executor not looked up yet
    | Executing   // the row says running and the executor is at work
    | Releasing   // last write attempted; the deferred release is still due
    | Starting    // poller not looked up yet
    | Polling(attempts: nat, calls: nat)   // waiting in the select
    | Reported(attempts: nat, calls: nat, progress: int, completed: bool, output: string)
    | Finishing(attempts: nat, calls: nat, output: string)

  /** A live goroutine: the task it was started for, its own copy of the row,
      and its phase. */
  datatype Worker = Worker(id: TaskId, task: Task, phase: Phase)
  {
    predicate HoldsSlot() {
      phase.Holding? || phase.Executing? || phase.Releasing?
    }

    predicate IsExecutor() {
      phase.Queued? || HoldsSlot()
    }
  }

  /** A Cancel call between its read and its write: the row it will save. */
  datatype Cancel = Cancel(id: TaskId, row: Task)

  /** How far Start has come. */
  datatype Boot =
    | Fresh
    | Requeue(todo: seq<TaskId>)
    | Resume(todo: seq<TaskId>, rows: map<TaskId, Task>)
    | Serving

  /** What one Start has listed and launched, kept so that it can be compared
      with the store it started from. */
  datatype History = History(
    listed: map<TaskId, Task>,    // non-terminal rows seen by recoverPendingTasks
    launched: multiset<TaskId>,   // goroutines started by recovery
    resetFailed: set<TaskId>,     // rows whose reset to pending failed
    gone: set<TaskId>,            // external rows no longer running at the second listing
    early: set<TaskId>)           // submitted before the listing that looks for such tasks

  const NO_HISTORY := History(map[], multiset{}, {}, {}, {})

  datatype State = State(
    store: map<TaskId, Task>,
    workers: map<WorkerId, Worker>,
    nextWorker: WorkerId,
    tokens: nat,
    cancels: map<CancelId, Cancel>,
    nextCancel: CancelId,
    stopped: bool,
    boot: Boot,
    history: History)

  datatype Config = Config(
    maxConcurrent: nat, maxPollAttempts: int,
    executors: set<string>, pollers: set<string>)

  /** What PollStatus answers. */
  datatype PollResult = PollError | PollOk(progress: int, completed: bool, output: string)

  datatype Event =
    | Submit(id: TaskId, kind: string, ok: bool)
    | SubmitExternal(id: TaskId, kind: string, external: string, ok: bool)
    | CancelRead(id: TaskId)
    | CancelWrite(cancel: CancelId, ok: bool)
    | AcquireSlot(w: WorkerId)
    | QuitQueued(w: WorkerId)
    | Begin(w: WorkerId, ok: bool)
    | Progress(w: WorkerId, progress: int, newOutput: Option<string>, ok: bool)
    | Finish(w: WorkerId, failed: bool, now: int, ok: bool)
    | Release(w: WorkerId)
    | PollStart(w: WorkerId, ok: bool)
    | PollStop(w: WorkerId)
    | PollTimeout(w: WorkerId, ok: bool)
    | PollTick(w: WorkerId, result: PollResult, ok: bool)
    | ApplyReport(w: WorkerId, ok: bool)
    | SaveCompleted(w: WorkerId, now: int, ok: bool)
    | ListPending(order: seq<TaskId>)
    | RequeueNext(ok: bool)
    | ListExternal(order: seq<TaskId>)
    | ResumeNext
    | StartDone
    | Stop
    | NewManager
    | Crash

  ghost predicate NoDuplicates(xs: seq<TaskId>) {
    forall i, j :: 0 <= i < j < |xs| ==> xs[i] != xs[j]
  }

  /** `order` lists exactly the members of `ids`, each once. */
  ghost predicate Enumerates(order: seq<TaskId>, ids: set<TaskId>) {
    NoDuplicates(order) && (forall x :: x in order <==> x in ids)
  }

  /** ListPendingOrRunning. */
  function NonTerminal(store: map<TaskId, Task>): map<TaskId, Task> {
    map id | id in store && !store[id].IsTerminal() :: store[id]
  }

  /** ListByExternalTaskID. */
  function RunningExternal(store: map<TaskId, Task>): map<TaskId, Task> {
    map id | id in store && store[id].status == Running && store[id].external != "" :: store[id]
  }

  predicate InPhase(s: State, w: WorkerId, p: Phase) {
    w in s.workers && s.workers[w].phase == p
  }

  ghost predicate Enabled(c: Config, s: State, e: Event) {
    match e
    case Submit(id, _, _) => id !in s.store
    case SubmitExternal(id, _, external, _) => id !in s.store && external != ""
    case CancelRead(_) => true
    case CancelWrite(k, _) => k in s.cancels
    case AcquireSlot(w) => InPhase(s, w, Queued) && s.tokens < c.maxConcurrent
    case QuitQueued(w) => InPhase(s, w, Queued) && s.stopped
    case Begin(w, _) => InPhase(s, w, Holding)
    case Progress(w, _, _, _) => InPhase(s, w, Executing)
    case Finish(w, _, _, _) => InPhase(s, w, Executing)
    case Release(w) => InPhase(s, w, Releasing) && s.tokens > 0
    case PollStart(w, _) => InPhase(s, w, Starting)
    case PollStop(w) => w in s.workers && s.workers[w].phase.Polling? && s.stopped
    case PollTimeout(w, _) => w in s.workers && s.workers[w].phase.Polling?
    case PollTick(w, _, _) => w in s.workers && s.workers[w].phase.Polling?
    case ApplyReport(w, _) => w in s.workers && s.workers[w].phase.Reported?
    case SaveCompleted(w, _, _) => w in s.workers && s.workers[w].phase.Finishing?
    case ListPending(order) => s.boot == Fresh && Enumerates(order, NonTerminal(s.store).Keys)
    case RequeueNext(_) =>
      s.boot.Requeue? && s.boot.todo != [] && s.boot.todo[0] in s.history.listed
    case ListExternal(order) =>
      s.boot == Requeue([]) && Enumerates(order, RunningExternal(s.store).Keys)
    case ResumeNext =>
      s.boot.Resume? && s.boot.todo != [] && s.boot.todo[0] in s.boot.rows
    case StartDone => s.boot.Resume? && s.boot.todo == []
    case Stop => !s.stopped
    case NewManager => (s.boot == Fresh || s.boot == Serving) && s.stopped && s.workers == map[]
    case Crash => true
  }

  // Small building blocks of a step.

  function Saved(s: State, id: TaskId, row: Task, ok: bool): State {
    if ok then s.(store := s.store[id := row]) else s
  }

  /** UpdateStatus: only the status and progress columns are written. */
  function SavedStatus(s: State, id: TaskId, status: Status, progress: int, ok: bool): State {
    if ok && id in s.store
    then s.(store := s.store[id := s.store[id].(status := status, progress := progress)])
    else s
  }

  function Put(s: State, w: WorkerId, worker: Worker): State {
    s.(workers := s.workers[w := worker])
  }

  function Exit(s: State, w: WorkerId): State {
    s.(workers := s.workers - {w})
  }

  function Launch(s: State, id: TaskId, row: Task, phase: Phase): State {
    s.(workers := s.workers[s.nextWorker := Worker(id, row, phase)], nextWorker := s.nextWorker + 1)
  }

  function CountLaunch(s: State, id: TaskId): State {
    s.(history := s.history.(launched := s.history.launched + multiset{id}))
  }

  // ---------- submission and cancellation ----------

  /** Start has not made the listing yet in which such a task will turn up. */
  predicate TooEarly(boot: Boot, external: bool) {
    boot.Fresh? || (external && boot.Requeue?)
  }

  function Noted(s: State, id: TaskId, external: bool): State {
    if TooEarly(s.boot, external) then s.(history := s.history.(early := s.history.early + {id})) else s
  }

  function SubmitStep(s: State, id: TaskId, kind: string, ok: bool): State {
    var t := NewTask(kind, Pending, "");
    if ok then Launch(Saved(Noted(s, id, false), id, t, true), id, t, Queued) else s
  }

  function SubmitExternalStep(s: State, id: TaskId, kind: string, external: string, ok: bool): State {
    var t := NewTask(kind, Running, external);
    if ok then Launch(Saved(Noted(s, id, true), id, t, true), id, t, Starting) else s
  }

  /** The read half of Cancel: a terminal or missing task is refused. */
  function CancelReadStep(s: State, id: TaskId): State {
    if id !in s.store || s.store[id].IsTerminal() then s else
    s.(cancels := s.cancels[s.nextCancel := Cancel(id, s.store[id].(status := Cancelled))],
       nextCancel := s.nextCancel + 1)
  }

  /** The write half of Cancel: the whole row read earlier is saved. */
  function CancelWriteStep(s: State, k: CancelId, ok: bool): State
    requires k in s.cancels
  {
    Saved(s, s.cancels[k].id, s.cancels[k].row, ok).(cancels := s.cancels - {k})
  }

  // ---------- executeTask ----------

  function AcquireSlotStep(s: State, w: WorkerId): State
    requires w in s.workers
  {
    Put(s, w, s.workers[w].(phase := Holding)).(tokens := s.tokens + 1)
  }

  function BeginStep(c: Config, s: State, w: WorkerId, ok: bool): State
    requires w in s.workers
  {
    var k := s.workers[w];
    if k.task.kind !in c.executors then
      var t := FailedWith(k.task, "unknown_task_type");
      Saved(Put(s, w, k.(task := t, phase := Releasing)), k.id, t, ok)
    else
      var t := k.task.(status := Running);
      Saved(Put(s, w, k.(task := t, phase := if ok then Executing else Releasing)), k.id, t, ok)
  }

  function ProgressStep(s: State, w: WorkerId, progress: int, newOutput: Option<string>, ok: bool): State
    requires w in s.workers
  {
    var k := s.workers[w];
    var t := k.task.(progress := progress,
                     output := if newOutput.Some? then newOutput.value else k.task.output);
    SavedStatus(Put(s, w, k.(task := t)), k.id, t.status, progress, ok)
  }

  function FinishStep(s: State, w: WorkerId, failed: bool, now: int, ok: bool): State
    requires w in s.workers
  {
    var k := s.workers[w];
    var t := if failed then FailedWith(k.task, "execution_failed") else CompletedAt(k.task, now);
    Saved(Put(s, w, k.(task := t, phase := Releasing)), k.id, t, ok)
  }

  function ReleaseStep(s: State, w: WorkerId): State
    requires s.tokens > 0
  {
    Exit(s, w).(tokens := s.tokens - 1)
  }

  // ---------- pollExternalTask ----------

  /** failTask followed by the poller's return. */
  function PollFailStep(s: State, w: WorkerId, code: string, ok: bool): State
    requires w in s.workers
  {
    Saved(Exit(s, w), s.workers[w].id, FailedWith(s.workers[w].task, code), ok)
  }

  function PollStartStep(c: Config, s: State, w: WorkerId, ok: bool): State
    requires w in s.workers
  {
    if s.workers[w].task.kind !in c.pollers then PollFailStep(s, w, "unknown_poller", ok)
    else Put(s, w, s.workers[w].(phase := Polling(0, 0)))
  }

  function PollTickStep(c: Config, s: State, w: WorkerId, result: PollResult, ok: bool): State
    requires w in s.workers && s.workers[w].phase.Polling?
  {
    var k := s.workers[w];
    var attempts := k.phase.attempts + 1;
    if attempts > c.maxPollAttempts then PollFailStep(s, w, "max_attempts", ok)
    else
      Put(s, w, k.(phase :=
        match result
        case PollError => Polling(attempts, k.phase.calls + 1)
        case PollOk(progress, completed, output) =>
          Reported(attempts, k.phase.calls + 1, progress, completed, output)))
  }

  function ApplyReportStep(s: State, w: WorkerId, ok: bool): State
    requires w in s.workers && s.workers[w].phase.Reported?
  {
    var k := s.workers[w];
    var p := k.phase;
    var t := k.task.(progress := p.progress);
    var after := if p.completed then Finishing(p.attempts, p.calls, p.output)
                 else Polling(p.attempts, p.calls);
    SavedStatus(Put(s, w, k.(task := t, phase := after)), k.id, t.status, p.progress,
                ok && p.progress != k.task.progress)
  }

  function SaveCompletedStep(s: State, w: WorkerId, now: int, ok: bool): State
    requires w in s.workers && s.workers[w].phase.Finishing?
  {
    var k := s.workers[w];
    Saved(Exit(s, w), k.id, CompletedAt(k.task.(output := k.phase.output), now), ok)
  }

  // ---------- Start ----------

  function ListPendingStep(s: State, order: seq<TaskId>): State {
    s.(boot := Requeue(order),
       history := NO_HISTORY.(listed := NonTerminal(s.store), early := s.history.early))
  }

  /** One round of the loop in recoverPendingTasks. */
  function RequeueOne(s: State, id: TaskId, row: Task, ok: bool): State {
    if row.external != "" then s
    else if row.status == Running then
      var reset := row.(status := Pending);
      if ok then CountLaunch(Launch(Saved(s, id, reset, true), id, reset, Queued), id)
      else s.(history := s.history.(resetFailed := s.history.resetFailed + {id}))
    else CountLaunch(Launch(s, id, row, Queued), id)
  }

  function RequeueNextStep(s: State, ok: bool): State
    requires s.boot.Requeue? && s.boot.todo != [] && s.boot.todo[0] in s.history.listed
  {
    RequeueOne(s.(boot := Requeue(s.boot.todo[1..])), s.boot.todo[0],
               s.history.listed[s.boot.todo[0]], ok)
  }

  function ListExternalStep(s: State, order: seq<TaskId>): State {
    var rows := RunningExternal(s.store);
    s.(boot := Resume(order, rows),
       history := s.history.(gone := set id | id in s.history.listed
                                   && s.history.listed[id].external != "" && id !in rows))
  }

  /** One round of the loop in recoverExternalTasks. */
  function ResumeOne(s: State, id: TaskId, row: Task): State {
    CountLaunch(Launch(s, id, row, Starting), id)
  }

  function ResumeNextStep(s: State): State
    requires s.boot.Resume? && s.boot.todo != [] && s.boot.todo[0] in s.boot.rows
  {
    ResumeOne(s.(boot := s.boot.(todo := s.boot.todo[1..])), s.boot.todo[0],
              s.boot.rows[s.boot.todo[0]])
  }

  /** NewManager over an existing table; cancels in flight belong to their
      callers and outlive the manager. */
  function FreshManager(store: map<TaskId, Task>, cancels: map<CancelId, Cancel>,
                        nextCancel: CancelId): State {
    State(store, map[], 0, 0, cancels, nextCancel, false, Fresh, NO_HISTORY)
  }

  // ---------- runs ----------

  ghost function Next(c: Config, s: State, e: Event): State
    requires Enabled(c, s, e)
  {
    match e
    case Submit(id, kind, ok) => SubmitStep(s, id, kind, ok)
    case SubmitExternal(id, kind, external, ok) => SubmitExternalStep(s, id, kind, external, ok)
    case CancelRead(id) => CancelReadStep(s, id)
    case CancelWrite(k, ok) => CancelWriteStep(s, k, ok)
    case AcquireSlot(w) => AcquireSlotStep(s, w)
    case QuitQueued(w) => Exit(s, w)
    case Begin(w, ok) => BeginStep(c, s, w, ok)
    case Progress(w, progress, newOutput, ok) => ProgressStep(s, w, progress, newOutput, ok)
    case Finish(w, failed, now, ok) => FinishStep(s, w, failed, now, ok)
    case Release(w) => ReleaseStep(s, w)
    case PollStart(w, ok) => PollStartStep(c, s, w, ok)
    case PollStop(w) => Exit(s, w)
    case PollTimeout(w, ok) => PollFailStep(s, w, "timeout", ok)
    case PollTick(w, result, ok) => PollTickStep(c, s, w, result, ok)
    case ApplyReport(w, ok) => ApplyReportStep(s, w, ok)
    case SaveCompleted(w, now, ok) => SaveCompletedStep(s, w, now, ok)
    case ListPending(order) => ListPendingStep(s, order)
    case RequeueNext(ok) => RequeueNextStep(s, ok)
    case ListExternal(order) => ListExternalStep(s, order)
    case ResumeNext => ResumeNextStep(s)
    case StartDone => s.(boot := Serving)
    case Stop => s.(stopped := true)
    case NewManager => FreshManager(s.store, s.cancels, s.nextCancel)
    case Crash => FreshManager(s.store, map[], s.nextCancel)
  }

  ghost predicate Legal(c: Config, s: State, es: seq<Event>)
    decreases |es|
  {
    es == [] || (Enabled(c, s, es[0]) && Legal(c, Next(c, s, es[0]), es[1..]))
  }

  ghost function Run(c: Config, s: State, es: seq<Event>): State
    requires Legal(c, s, es)
    decreases |es|
  {
    if es == [] then s else Run(c, Next(c, s, es[0]), es[1..])
  }

  /** An empty table and a manager that has not been started. */
  function Initial(): State {
    FreshManager(map[], map[], 0)
  }
}
