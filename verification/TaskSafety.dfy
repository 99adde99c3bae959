/** What every step of the task manager keeps, and what follows for whole runs:
    bounded concurrency and polling, one worker per task, the shape of rows,
    finality of results, and the exact outcome of a restart. */
module TaskSafety {
  import opened Options
  import opened TaskModel

  // ---------- the invariant ----------

  ghost function Holders(s: State): set<WorkerId> {
    set w | w in s.workers && s.workers[w].HoldsSlot()
  }

  /** Semaphore tokens in use are exactly the executors holding a slot. */
  ghost predicate SlotInv(c: Config, s: State) {
    s.tokens == |Holders(s)| && s.tokens <= c.maxConcurrent
  }

  /** PollStatus has been called once per counted attempt, never beyond the limit. */
  predicate CallsBounded(c: Config, p: Phase) {
    p.Polling? || p.Reported? || p.Finishing? ==>
      p.calls == p.attempts && (p.calls == 0 || p.calls <= c.maxPollAttempts)
  }

  predicate WorkerOk(c: Config, s: State, w: WorkerId)
    requires w in s.workers
  {
    var k := s.workers[w];
    && w < s.nextWorker
    && k.id in s.store
    && k.task.external == s.store[k.id].external
    && (k.IsExecutor() <==> k.task.external == "")
    && (k.phase.Queued? || k.phase.Holding? ==> k.task.status == Pending)
    && (k.phase.Executing? || !k.IsExecutor() ==> k.task.status == Running)
    && CallsBounded(c, k.phase)
  }

  ghost predicate WorkersInv(c: Config, s: State) {
    forall w :: w in s.workers ==> WorkerOk(c, s, w)
  }

  /** Only a task that was submitted too early can have two workers. */
  ghost predicate UniqueInv(s: State) {
    && s.history.early <= s.store.Keys
    && forall w1, w2 ::
         w1 in s.workers && w2 in s.workers && s.workers[w1].id == s.workers[w2].id ==>
           w1 == w2 || s.workers[w1].id in s.history.early
  }

  /** A task with an external ID is never pending; a completed one carries
      progress 100 and a completion time. */
  predicate RowOk(t: Task) {
    && (t.external != "" ==> t.status != Pending)
    && (t.status == Completed ==> t.progress == 100 && t.completedAt.Some?)
  }

  ghost predicate RowsInv(s: State) {
    forall id :: id in s.store ==> RowOk(s.store[id])
  }

  predicate CancelOk(s: State, k: CancelId)
    requires k in s.cancels
  {
    var x := s.cancels[k];
    && k < s.nextCancel
    && x.id in s.store
    && x.row.status == Cancelled
    && x.row.external == s.store[x.id].external
  }

  ghost predicate CancelsInv(s: State) {
    forall k :: k in s.cancels ==> CancelOk(s, k)
  }

  function Todo(s: State): seq<TaskId> {
    match s.boot
    case Requeue(todo) => todo
    case Resume(todo, _) => todo
    case _ => []
  }

  predicate CanWrite(c: Config, k: Worker) {
    !k.phase.Releasing? && (k.phase.Queued? ==> c.maxConcurrent > 0)
  }

  /** Start still has a copy of the row that it will write back or launch a writing
      worker with. */
  predicate WillWrite(c: Config, s: State, id: TaskId) {
    match s.boot
    case Requeue(todo) =>
      && id in todo && id in s.history.listed && s.history.listed[id].external == ""
      && (s.history.listed[id].status == Running || c.maxConcurrent > 0)
    case Resume(todo, _) => id in todo
    case _ => false
  }

  /** Nothing but a cancel that is already under way can still write the row. */
  ghost predicate Quiet(c: Config, s: State, id: TaskId) {
    && id in s.store
    && s.store[id].IsTerminal()
    && !WillWrite(c, s, id)
    && (forall w :: w in s.workers && s.workers[w].id == id ==> !CanWrite(c, s.workers[w]))
  }

  /** A listed task is still to be handled, or has got its outcome: one launch,
      or none because its reset failed or it stopped running meanwhile. */
  ghost predicate Accounted(h: History, id: TaskId, waiting: bool) {
    if waiting then h.launched[id] == 0 && id !in h.resetFailed && id !in h.gone
    else h.launched[id] == if id in h.resetFailed || id in h.gone then 0 else 1
  }

  /** `row` was read from the row that the store now has for `id`. */
  predicate StillThere(s: State, id: TaskId, row: Task) {
    id in s.store && s.store[id].external == row.external && !row.IsTerminal() && RowOk(row)
  }

  ghost predicate TodoInv(s: State, rows: map<TaskId, Task>) {
    && NoDuplicates(Todo(s))
    && (forall id :: id in Todo(s) ==> id in rows && StillThere(s, id, rows[id]))
    && (forall w :: w in s.workers ==> s.workers[w].id !in Todo(s) || s.workers[w].id in s.history.early)
  }

  ghost predicate OnlyListed(h: History) {
    && (forall id :: id !in h.listed && id !in h.early ==> h.launched[id] == 0)
    && (forall id :: id in h.resetFailed ==>
          id in h.listed && h.listed[id].external == "" && h.listed[id].status == Running)
    && (forall id :: id in h.gone ==> id in h.listed && h.listed[id].external != "")
  }

  ghost predicate RequeueHistory(h: History, todo: seq<TaskId>) {
    && OnlyListed(h)
    && h.gone == {}
    && (forall id :: id in h.listed ==>
          if h.listed[id].external == "" then Accounted(h, id, id in todo) else Accounted(h, id, true))
  }

  ghost predicate RequeueInv(c: Config, s: State, todo: seq<TaskId>) {
    && TodoInv(s, s.history.listed)
    && RequeueHistory(s.history, todo)
    && (forall w :: w in s.workers ==> s.workers[w].IsExecutor() || s.workers[w].id in s.history.early)
    && (forall id :: id in s.history.listed ==> StillThere(s, id, s.history.listed[id]))
    && (forall id :: id in s.store && s.store[id].external != "" && !s.store[id].IsTerminal() ==>
          id in s.history.listed || id in s.history.early)
  }

  ghost predicate ResumeInv(c: Config, s: State, todo: seq<TaskId>, rows: map<TaskId, Task>) {
    && TodoInv(s, rows)
    && OnlyListed(s.history)
    && (forall id :: id in rows ==>
          (id in s.history.listed || id in s.history.early)
          && rows[id].external != "" && rows[id].status == Running && id !in s.history.gone)
    && (forall id :: id in s.history.listed ==> Accounted(s.history, id, id in todo))
    && (forall id :: id in s.history.gone ==> Quiet(c, s, id) || id in s.history.early)
  }

  ghost predicate ServingInv(c: Config, s: State) {
    && OnlyListed(s.history)
    && (forall id :: id in s.history.listed ==> Accounted(s.history, id, false))
    && (forall id :: id in s.history.gone ==> Quiet(c, s, id) || id in s.history.early)
  }

  ghost predicate BootInv(c: Config, s: State) {
    match s.boot
    case Fresh => forall w :: w in s.workers ==> s.workers[w].id in s.history.early
    case Requeue(todo) => RequeueInv(c, s, todo)
    case Resume(todo, rows) => ResumeInv(c, s, todo, rows)
    case Serving => ServingInv(c, s)
  }

  ghost predicate Inv(c: Config, s: State) {
    && SlotInv(c, s)
    && WorkersInv(c, s)
    && UniqueInv(s)
    && RowsInv(s)
    && CancelsInv(s)
    && BootInv(c, s)
  }

  // ---------- one step keeps it ----------

  lemma InitialInv(c: Config)
    ensures Inv(c, Initial())
  {
    assert Holders(Initial()) == {};
  }

  // Most steps concern one worker: it moves to another phase or exits, and at
  // most its own row is written.

  /** Only the row of `id` may differ, and it keeps its external ID. */
  ghost predicate WritesOnly(s: State, s': State, id: TaskId) {
    && id in s.store
    && s'.store.Keys == s.store.Keys
    && (forall x :: x in s.store && x != id ==> s'.store[x] == s.store[x])
    && s'.store[id].external == s.store[id].external
    && RowOk(s'.store[id])
  }

  predicate SameOtherwise(s: State, s': State) {
    s'.(store := s.store, workers := s.workers, tokens := s.tokens) == s
  }

  ghost predicate WorkerStep(c: Config, s: State, s': State, w: WorkerId) {
    && w in s.workers
    && s'.workers - {w} == s.workers - {w}
    && WritesOnly(s, s', s.workers[w].id)
    && (CanWrite(c, s.workers[w]) || s'.store == s.store)
    && SameOtherwise(s, s')
    && (w in s'.workers ==>
          && s'.workers[w].id == s.workers[w].id
          && WorkerOk(c, s', w)
          && (s'.workers[w].IsExecutor() == s.workers[w].IsExecutor())
          && (CanWrite(c, s'.workers[w]) ==> CanWrite(c, s.workers[w])))
    && s'.tokens + (if s.workers[w].HoldsSlot() then 1 else 0)
       == s.tokens + (if w in s'.workers && s'.workers[w].HoldsSlot() then 1 else 0)
    && s'.tokens <= c.maxConcurrent
  }

  predicate OfWorker(e: Event) {
    || e.AcquireSlot? || e.QuitQueued? || e.Begin? || e.Progress? || e.Finish? || e.Release?
    || e.PollStart? || e.PollStop? || e.PollTimeout? || e.PollTick? || e.ApplyReport?
    || e.SaveCompleted?
  }

  /** What the steps of one worker rely on. */
  predicate WorkerReady(c: Config, s: State, w: WorkerId) {
    && w in s.workers
    && WorkerOk(c, s, w)
    && RowOk(s.store[s.workers[w].id])
    && s.tokens <= c.maxConcurrent
  }

  lemma ExitIsWorkerStep(c: Config, s: State, w: WorkerId)
    requires WorkerReady(c, s, w) && !s.workers[w].HoldsSlot()
    ensures WorkerStep(c, s, Exit(s, w), w)
  {
  }

  lemma AcquireSlotIsWorkerStep(c: Config, s: State, w: WorkerId)
    requires WorkerReady(c, s, w) && InPhase(s, w, Queued) && s.tokens < c.maxConcurrent
    ensures WorkerStep(c, s, AcquireSlotStep(s, w), w)
  {
  }

  lemma BeginIsWorkerStep(c: Config, s: State, w: WorkerId, ok: bool)
    requires WorkerReady(c, s, w) && InPhase(s, w, Holding)
    ensures WorkerStep(c, s, BeginStep(c, s, w, ok), w)
  {
  }

  lemma ProgressIsWorkerStep(c: Config, s: State, w: WorkerId, progress: int, newOutput: Option<string>, ok: bool)
    requires WorkerReady(c, s, w) && InPhase(s, w, Executing)
    ensures WorkerStep(c, s, ProgressStep(s, w, progress, newOutput, ok), w)
  {
  }

  lemma FinishIsWorkerStep(c: Config, s: State, w: WorkerId, failed: bool, now: int, ok: bool)
    requires WorkerReady(c, s, w) && InPhase(s, w, Executing)
    ensures WorkerStep(c, s, FinishStep(s, w, failed, now, ok), w)
  {
  }

  lemma ReleaseIsWorkerStep(c: Config, s: State, w: WorkerId)
    requires WorkerReady(c, s, w) && InPhase(s, w, Releasing) && s.tokens > 0
    ensures WorkerStep(c, s, ReleaseStep(s, w), w)
  {
  }

  lemma PollFailIsWorkerStep(c: Config, s: State, w: WorkerId, code: string, ok: bool)
    requires WorkerReady(c, s, w) && !s.workers[w].IsExecutor()
    ensures WorkerStep(c, s, PollFailStep(s, w, code, ok), w)
  {
  }

  lemma PollStartIsWorkerStep(c: Config, s: State, w: WorkerId, ok: bool)
    requires WorkerReady(c, s, w) && InPhase(s, w, Starting)
    ensures WorkerStep(c, s, PollStartStep(c, s, w, ok), w)
  {
  }

  lemma PollTickIsWorkerStep(c: Config, s: State, w: WorkerId, result: PollResult, ok: bool)
    requires WorkerReady(c, s, w) && s.workers[w].phase.Polling?
    ensures WorkerStep(c, s, PollTickStep(c, s, w, result, ok), w)
  {
  }

  lemma ApplyReportIsWorkerStep(c: Config, s: State, w: WorkerId, ok: bool)
    requires WorkerReady(c, s, w) && s.workers[w].phase.Reported?
    ensures WorkerStep(c, s, ApplyReportStep(s, w, ok), w)
  {
  }

  lemma SaveCompletedIsWorkerStep(c: Config, s: State, w: WorkerId, now: int, ok: bool)
    requires WorkerReady(c, s, w) && s.workers[w].phase.Finishing?
    ensures WorkerStep(c, s, SaveCompletedStep(s, w, now, ok), w)
  {
  }

  lemma IsWorkerStep(c: Config, s: State, e: Event)
    requires Enabled(c, s, e) && OfWorker(e) && WorkerReady(c, s, e.w)
    ensures WorkerStep(c, s, Next(c, s, e), e.w)
  {
    match e
    case AcquireSlot(w) => AcquireSlotIsWorkerStep(c, s, w);
    case QuitQueued(w) => ExitIsWorkerStep(c, s, w);
    case Begin(w, ok) => BeginIsWorkerStep(c, s, w, ok);
    case Progress(w, progress, newOutput, ok) => ProgressIsWorkerStep(c, s, w, progress, newOutput, ok);
    case Finish(w, failed, now, ok) => FinishIsWorkerStep(c, s, w, failed, now, ok);
    case Release(w) => ReleaseIsWorkerStep(c, s, w);
    case PollStart(w, ok) => PollStartIsWorkerStep(c, s, w, ok);
    case PollStop(w) => ExitIsWorkerStep(c, s, w);
    case PollTimeout(w, ok) => PollFailIsWorkerStep(c, s, w, "timeout", ok);
    case PollTick(w, result, ok) => PollTickIsWorkerStep(c, s, w, result, ok);
    case ApplyReport(w, ok) => ApplyReportIsWorkerStep(c, s, w, ok);
    case SaveCompleted(w, now, ok) => SaveCompletedIsWorkerStep(c, s, w, now, ok);
  }

  lemma OtherWorkers(s: State, s': State, w: WorkerId)
    requires s'.workers - {w} == s.workers - {w}
    ensures forall v :: v != w ==> (v in s'.workers <==> v in s.workers)
    ensures forall v :: v != w && v in s.workers ==> s'.workers[v] == s.workers[v]
  {
    forall v | v != w
      ensures v in s'.workers <==> v in s.workers
      ensures v in s.workers ==> s'.workers[v] == s.workers[v]
    {
      assert v in s'.workers <==> v in s'.workers - {w};
      assert v in s.workers <==> v in s.workers - {w};
      if v in s.workers {
        assert s'.workers[v] == (s'.workers - {w})[v] == (s.workers - {w})[v];
      }
    }
  }

  lemma SizeWithout(a: set<WorkerId>, w: WorkerId)
    ensures |a| == |a - {w}| + if w in a then 1 else 0
  {
    assert a == if w in a then (a - {w}) + {w} else a - {w};
  }

  lemma HoldersElsewhere(s: State, s': State, w: WorkerId)
    requires s'.workers - {w} == s.workers - {w}
    ensures Holders(s') - {w} == Holders(s) - {w}
  {
    OtherWorkers(s, s', w);
  }

  lemma HoldersChange(s: State, s': State, w: WorkerId)
    requires s'.workers - {w} == s.workers - {w}
    ensures |Holders(s')| + (if w in Holders(s) then 1 else 0)
         == |Holders(s)| + (if w in Holders(s') then 1 else 0)
  {
    HoldersElsewhere(s, s', w);
    SizeWithout(Holders(s), w);
    SizeWithout(Holders(s'), w);
  }

  lemma WorkerStepWorkers(c: Config, s: State, s': State, w: WorkerId)
    requires SlotInv(c, s) && WorkersInv(c, s) && UniqueInv(s) && RowsInv(s) && CancelsInv(s)
    requires WorkerStep(c, s, s', w)
    ensures SlotInv(c, s') && WorkersInv(c, s') && UniqueInv(s') && RowsInv(s') && CancelsInv(s')
  {
    HoldersChange(s, s', w);
    OtherWorkers(s, s', w);
    forall v | v in s'.workers ensures WorkerOk(c, s', v) {
      if v != w { assert WorkerOk(c, s, v); }
    }
    forall k | k in s'.cancels ensures CancelOk(s', k) { assert CancelOk(s, k); }
  }

  /** `s'` has fewer workers and at most rewritten rows, which matters neither to
      the tasks Start still has to launch nor to its account. */
  ghost predicate RowsRewritten(s: State, s': State) {
    && s'.store.Keys == s.store.Keys
    && (forall x :: x in s.store ==> s'.store[x].external == s.store[x].external)
    && (forall w :: w in s'.workers ==>
          w in s.workers && s'.workers[w].id == s.workers[w].id
          && s'.workers[w].IsExecutor() == s.workers[w].IsExecutor())
    && s'.boot == s.boot && s'.history == s.history
  }

  lemma TodoKept(s: State, s': State, rows: map<TaskId, Task>)
    requires RowsRewritten(s, s') && TodoInv(s, rows)
    ensures TodoInv(s', rows)
  {
    forall x | x in Todo(s') ensures StillThere(s', x, rows[x]) {
      assert StillThere(s, x, rows[x]);
    }
  }

  lemma RequeueKept(c: Config, s: State, s': State)
    requires RowsRewritten(s, s') && s.boot.Requeue? && RequeueInv(c, s, s.boot.todo)
    requires forall x :: x in s.store && s.store[x].external != "" ==>
      s'.store[x] == s.store[x] || s'.store[x].IsTerminal() || x in s.history.early
    ensures RequeueInv(c, s', s.boot.todo)
  {
    TodoKept(s, s', s.history.listed);
    forall x | x in s.history.listed ensures StillThere(s', x, s.history.listed[x]) {
      assert StillThere(s, x, s.history.listed[x]);
    }
  }

  lemma BootKept(c: Config, s: State, s': State)
    requires RowsRewritten(s, s') && BootInv(c, s)
    requires s.boot.Requeue? ==> forall x :: x in s.store && s.store[x].external != "" ==>
      s'.store[x] == s.store[x] || s'.store[x].IsTerminal() || x in s.history.early
    requires forall x :: Quiet(c, s, x) ==> Quiet(c, s', x)
    ensures BootInv(c, s')
  {
    match s.boot
    case Fresh =>
    case Requeue(_) => RequeueKept(c, s, s');
    case Resume(_, rows) => TodoKept(s, s', rows);
    case Serving =>
  }

  lemma WorkerStepBoot(c: Config, s: State, s': State, w: WorkerId)
    requires w in s.workers && BootInv(c, s) && WorkerOk(c, s, w) && WorkerStep(c, s, s', w)
    ensures BootInv(c, s')
  {
    OtherWorkers(s, s', w);
    assert RowsRewritten(s, s');
    forall id | Quiet(c, s, id) ensures Quiet(c, s', id) {
      WorkerStepQuiet(c, s, s', w, id);
    }
    BootKept(c, s, s');
  }

  lemma WorkerStepQuiet(c: Config, s: State, s': State, w: WorkerId, id: TaskId)
    requires WorkerStep(c, s, s', w) && Quiet(c, s, id)
    ensures Quiet(c, s', id) && s'.store[id] == s.store[id]
  {
    OtherWorkers(s, s', w);
  }


  // A launch adds one worker for a task that has none, or was submitted too early.

  ghost predicate LaunchStep(c: Config, s: State, s': State, id: TaskId) {
    && s.nextWorker in s'.workers
    && s'.workers == s.workers[s.nextWorker := s'.workers[s.nextWorker]]
    && s'.workers[s.nextWorker].id == id
    && !s'.workers[s.nextWorker].HoldsSlot()
    && s'.nextWorker == s.nextWorker + 1
    && s'.tokens == s.tokens && s'.cancels == s.cancels && s'.nextCancel == s.nextCancel
    && s.history.early <= s'.history.early <= s.history.early + {id}
    && (id in s'.history.early || forall w :: w in s.workers ==> s.workers[w].id != id)
    && s'.store.Keys == s.store.Keys + {id}
    && (forall x :: x in s.store && x != id ==> s'.store[x] == s.store[x])
    && (id in s.store ==> s'.store[id].external == s.store[id].external)
    && RowOk(s'.store[id])
    && WorkerOk(c, s', s.nextWorker)
  }

  lemma NextWorkerIsNew(c: Config, s: State)
    requires WorkersInv(c, s)
    ensures s.nextWorker !in s.workers
  {
    forall w | w in s.workers ensures w != s.nextWorker { assert WorkerOk(c, s, w); }
  }

  lemma LaunchStepWorkers(c: Config, s: State, s': State, id: TaskId)
    requires SlotInv(c, s) && WorkersInv(c, s) && UniqueInv(s) && RowsInv(s) && CancelsInv(s)
    requires LaunchStep(c, s, s', id)
    ensures SlotInv(c, s') && WorkersInv(c, s') && UniqueInv(s') && RowsInv(s') && CancelsInv(s')
  {
    NextWorkerIsNew(c, s);
    assert Holders(s') == Holders(s);
    forall v | v in s'.workers ensures WorkerOk(c, s', v) {
      if v != s.nextWorker { assert WorkerOk(c, s, v); }
    }
    forall k | k in s'.cancels ensures CancelOk(s', k) { assert CancelOk(s, k); }
  }

  lemma SubmitInv(c: Config, s: State, id: TaskId, kind: string, ok: bool)
    requires Inv(c, s) && id !in s.store
    ensures Inv(c, SubmitStep(s, id, kind, ok))
  {
    if ok {
      NewTaskHasNoWorkers(c, s, id);
      NewLaunchInv(c, s, SubmitStep(s, id, kind, ok), id);
    }
  }

  lemma SubmitExternalInv(c: Config, s: State, id: TaskId, kind: string, external: string, ok: bool)
    requires Inv(c, s) && id !in s.store && external != ""
    ensures Inv(c, SubmitExternalStep(s, id, kind, external, ok))
  {
    if ok {
      NewTaskHasNoWorkers(c, s, id);
      NewLaunchInv(c, s, SubmitExternalStep(s, id, kind, external, ok), id);
    }
  }

  lemma NewTaskHasNoWorkers(c: Config, s: State, id: TaskId)
    requires WorkersInv(c, s) && id !in s.store
    ensures forall w :: w in s.workers ==> s.workers[w].id != id
  {
    forall w | w in s.workers ensures s.workers[w].id != id { assert WorkerOk(c, s, w); }
  }

  /** A submission: its task is new, and noted if it comes too early. */
  ghost predicate NewLaunch(c: Config, s: State, s': State, id: TaskId) {
    && id !in s.store
    && LaunchStep(c, s, s', id)
    && s'.boot == s.boot && s'.history.(early := s.history.early) == s.history
    && (TooEarly(s.boot, s'.store[id].external != "") ==> id in s'.history.early)
  }

  lemma NewLaunchBoot(c: Config, s: State, s': State, id: TaskId)
    requires BootInv(c, s) && NewLaunch(c, s, s', id) && s.nextWorker !in s.workers
    ensures BootInv(c, s')
  {
    match s.boot
    case Fresh =>
    case Requeue(todo) => NewLaunchRequeue(c, s, s', id);
    case Resume(todo, rows) =>
      NewLaunchTodo(c, s, s', id, rows);
      NewLaunchGone(c, s, s', id);
    case Serving => NewLaunchGone(c, s, s', id);
  }

  lemma NewLaunchTodo(c: Config, s: State, s': State, id: TaskId, rows: map<TaskId, Task>)
    requires TodoInv(s, rows) && NewLaunch(c, s, s', id)
    ensures TodoInv(s', rows)
  {
    forall x | x in Todo(s') ensures StillThere(s', x, rows[x]) {
      assert StillThere(s, x, rows[x]);
    }
    assert id in Todo(s) ==> StillThere(s, id, rows[id]);
  }

  lemma NewLaunchRequeue(c: Config, s: State, s': State, id: TaskId)
    requires s.boot.Requeue? && RequeueInv(c, s, s.boot.todo) && NewLaunch(c, s, s', id)
    ensures RequeueInv(c, s', s.boot.todo)
  {
    NewLaunchTodo(c, s, s', id, s.history.listed);
    forall x | x in s'.history.listed ensures StillThere(s', x, s'.history.listed[x]) {
      assert StillThere(s, x, s.history.listed[x]);
    }
    assert WorkerOk(c, s', s.nextWorker);
  }

  lemma NewLaunchGone(c: Config, s: State, s': State, id: TaskId)
    requires NewLaunch(c, s, s', id) && s.nextWorker !in s.workers
    requires forall x :: x in s.history.gone ==> Quiet(c, s, x) || x in s.history.early
    ensures forall x :: x in s'.history.gone ==> Quiet(c, s', x) || x in s'.history.early
  {
    forall x | x in s'.history.gone ensures Quiet(c, s', x) || x in s'.history.early {
      assert Quiet(c, s, x) ==> x in s.store;
    }
  }

  lemma NewLaunchInv(c: Config, s: State, s': State, id: TaskId)
    requires Inv(c, s) && NewLaunch(c, s, s', id)
    ensures Inv(c, s')
  {
    NextWorkerIsNew(c, s);
    LaunchStepWorkers(c, s, s', id);
    NewLaunchBoot(c, s, s', id);
  }

  lemma CancelReadInv(c: Config, s: State, id: TaskId)
    requires Inv(c, s)
    ensures Inv(c, CancelReadStep(s, id))
  {
    var s' := CancelReadStep(s, id);
    CancelReadWorkers(c, s, id);
    forall k | k in s'.cancels ensures CancelOk(s', k) {
      if k != s.nextCancel { assert CancelOk(s, k); }
    }
    CancelReadBoot(c, s, id);
  }

  lemma CancelReadBoot(c: Config, s: State, id: TaskId)
    requires BootInv(c, s)
    ensures BootInv(c, CancelReadStep(s, id))
  {
    var s' := CancelReadStep(s, id);
    forall x | Quiet(c, s, x) ensures Quiet(c, s', x) {}
  }

  lemma CancelReadWorkers(c: Config, s: State, id: TaskId)
    requires SlotInv(c, s) && WorkersInv(c, s) && UniqueInv(s) && RowsInv(s)
    ensures var s' := CancelReadStep(s, id); SlotInv(c, s') && WorkersInv(c, s') && UniqueInv(s') && RowsInv(s')
  {
    var s' := CancelReadStep(s, id);
    assert Holders(s') == Holders(s);
    forall w | w in s'.workers ensures WorkerOk(c, s', w) { assert WorkerOk(c, s, w); }
  }

  lemma CancelWriteInv(c: Config, s: State, k: CancelId, ok: bool)
    requires Inv(c, s) && k in s.cancels
    ensures Inv(c, CancelWriteStep(s, k, ok))
  {
    var s' := CancelWriteStep(s, k, ok);
    assert CancelOk(s, k);
    CancelWriteRows(c, s, k, ok);
    forall x | Quiet(c, s, x) ensures Quiet(c, s', x) {}
    BootKept(c, s, s');
  }

  lemma CancelWriteRows(c: Config, s: State, k: CancelId, ok: bool)
    requires SlotInv(c, s) && WorkersInv(c, s) && UniqueInv(s) && RowsInv(s) && CancelsInv(s)
    requires k in s.cancels
    ensures var s' := CancelWriteStep(s, k, ok);
      && SlotInv(c, s') && WorkersInv(c, s') && UniqueInv(s') && RowsInv(s') && CancelsInv(s')
      && RowsRewritten(s, s')
  {
    var s' := CancelWriteStep(s, k, ok);
    assert CancelOk(s, k);
    assert Holders(s') == Holders(s);
    forall w | w in s'.workers ensures WorkerOk(c, s', w) { assert WorkerOk(c, s, w); }
    forall j | j in s'.cancels ensures CancelOk(s', j) { assert CancelOk(s, j); }
  }

  lemma ListPendingInv(c: Config, s: State, order: seq<TaskId>)
    requires Inv(c, s) && s.boot == Fresh && Enumerates(order, NonTerminal(s.store).Keys)
    ensures Inv(c, ListPendingStep(s, order))
  {
    var s' := ListPendingStep(s, order);
    assert Holders(s') == Holders(s);
    forall j | j in s'.cancels ensures CancelOk(s', j) { assert CancelOk(s, j); }
  }

  lemma TailOf(todo: seq<TaskId>)
    requires NoDuplicates(todo) && todo != []
    ensures NoDuplicates(todo[1..]) && todo[0] in todo && todo[0] !in todo[1..]
    ensures forall x :: x in todo <==> x == todo[0] || x in todo[1..]
  {
    assert todo == [todo[0]] + todo[1..];
  }

  /** Workers, rows and cancels do not look at the boot phase or the history. */
  lemma SameWorkersInv(c: Config, s: State, s': State)
    requires SlotInv(c, s) && WorkersInv(c, s) && UniqueInv(s) && RowsInv(s) && CancelsInv(s)
    requires s'.(boot := s.boot, history := s.history) == s && s'.history.early == s.history.early
    ensures SlotInv(c, s') && WorkersInv(c, s') && UniqueInv(s') && RowsInv(s') && CancelsInv(s')
  {
    assert Holders(s') == Holders(s);
    forall w | w in s'.workers ensures WorkerOk(c, s', w) { assert WorkerOk(c, s, w); }
    forall j | j in s'.cancels ensures CancelOk(s', j) { assert CancelOk(s, j); }
  }

  lemma RequeueOneHistory(h: History, todo: seq<TaskId>)
    requires RequeueHistory(h, todo) && NoDuplicates(todo) && todo != [] && todo[0] in h.listed
    ensures h.listed[todo[0]].external != "" ==> RequeueHistory(h, todo[1..])
    ensures h.listed[todo[0]].external == "" ==>
      RequeueHistory(h.(launched := h.launched + multiset{todo[0]}), todo[1..])
    ensures h.listed[todo[0]].external == "" && h.listed[todo[0]].status == Running ==>
      RequeueHistory(h.(resetFailed := h.resetFailed + {todo[0]}), todo[1..])
  {
    TailOf(todo);
  }

  /** The part of RequeueInv that concerns rows and workers. */
  ghost predicate RequeueRows(s: State) {
    && (forall w :: w in s.workers ==> s.workers[w].IsExecutor() || s.workers[w].id in s.history.early)
    && (forall id :: id in s.history.listed ==> StillThere(s, id, s.history.listed[id]))
    && (forall id :: id in s.store && s.store[id].external != "" && !s.store[id].IsTerminal() ==>
          id in s.history.listed || id in s.history.early)
  }

  lemma RequeueOneKeepsListing(s: State, id: TaskId, ok: bool)
    requires id in s.history.listed
    ensures var s' := RequeueOne(s, id, s.history.listed[id], ok);
      s'.boot == s.boot && s'.history.listed == s.history.listed && s'.history.early == s.history.early
  {
  }

  lemma RequeueOneRows(s: State, id: TaskId, ok: bool)
    requires RequeueRows(s) && id in s.history.listed
    ensures RequeueRows(RequeueOne(s, id, s.history.listed[id], ok))
  {
    var s' := RequeueOne(s, id, s.history.listed[id], ok);
    RequeueOneKeepsListing(s, id, ok);
    assert StillThere(s, id, s.history.listed[id]);
    forall x | x in s'.history.listed ensures StillThere(s', x, s'.history.listed[x]) {
      assert StillThere(s, x, s.history.listed[x]);
    }
  }

  lemma LaunchedTodo(s: State, s': State, rows: map<TaskId, Task>)
    requires TodoInv(s, rows) && s'.boot == s.boot && s'.history.early == s.history.early
    requires s'.store.Keys == s.store.Keys
    requires forall x :: x in s.store ==> s'.store[x].external == s.store[x].external
    requires forall w :: w in s'.workers && s'.workers[w].id in Todo(s) ==>
      w in s.workers && s'.workers[w].id == s.workers[w].id
    ensures TodoInv(s', rows)
  {
    forall x | x in Todo(s') ensures StillThere(s', x, rows[x]) {
      assert StillThere(s, x, rows[x]);
    }
  }

  lemma RequeueOneTodo(s: State, id: TaskId, row: Task, ok: bool)
    requires s.boot.Requeue? && TodoInv(s, s.history.listed) && id !in s.boot.todo
    requires id in s.store && s.store[id].external == row.external
    ensures TodoInv(RequeueOne(s, id, row, ok), s.history.listed)
  {
    LaunchedTodo(s, RequeueOne(s, id, row, ok), s.history.listed);
  }

  lemma RequeueOneLaunches(c: Config, s: State, id: TaskId, row: Task, ok: bool)
    requires StillThere(s, id, row) && RowOk(s.store[id])
    requires row.external == "" && (row.status == Running ==> ok)
    requires id in s.history.early || forall w :: w in s.workers ==> s.workers[w].id != id
    ensures LaunchStep(c, s, RequeueOne(s, id, row, ok), id)
  {
  }

  lemma RequeueOneWorkers(c: Config, s: State, id: TaskId, row: Task, ok: bool)
    requires SlotInv(c, s) && WorkersInv(c, s) && UniqueInv(s) && RowsInv(s) && CancelsInv(s)
    requires StillThere(s, id, row)
    requires id in s.history.early || forall w :: w in s.workers ==> s.workers[w].id != id
    ensures var s' := RequeueOne(s, id, row, ok);
      SlotInv(c, s') && WorkersInv(c, s') && UniqueInv(s') && RowsInv(s') && CancelsInv(s')
  {
    var s' := RequeueOne(s, id, row, ok);
    if row.external == "" && (row.status == Running ==> ok) {
      RequeueOneLaunches(c, s, id, row, ok);
      LaunchStepWorkers(c, s, s', id);
    } else {
      SameWorkersInv(c, s, s');
    }
  }

  lemma RequeueNextWorkers(c: Config, s: State, ok: bool)
    requires Inv(c, s) && s.boot.Requeue? && s.boot.todo != []
      && s.boot.todo[0] in s.history.listed
    ensures var s' := RequeueNextStep(s, ok);
      SlotInv(c, s') && WorkersInv(c, s') && UniqueInv(s') && RowsInv(s') && CancelsInv(s')
  {
    var id := s.boot.todo[0];
    var row := s.history.listed[id];
    var rest := s.(boot := Requeue(s.boot.todo[1..]));
    assert StillThere(s, id, row);
    SameWorkersInv(c, s, rest);
    RequeueOneWorkers(c, rest, id, row, ok);
  }

  lemma RequeueNextBoot(c: Config, s: State, ok: bool)
    requires Inv(c, s) && s.boot.Requeue? && s.boot.todo != []
      && s.boot.todo[0] in s.history.listed
    ensures BootInv(c, RequeueNextStep(s, ok))
  {
    var id := s.boot.todo[0];
    var row := s.history.listed[id];
    var rest := s.(boot := Requeue(s.boot.todo[1..]));
    TailOf(s.boot.todo);
    assert StillThere(s, id, row);
    assert TodoInv(rest, rest.history.listed);
    RequeueOneTodo(rest, id, row, ok);
    RequeueOneRows(rest, id, ok);
    RequeueOneKeepsListing(rest, id, ok);
    RequeueOneHistory(s.history, s.boot.todo);
  }

  lemma RequeueNextInv(c: Config, s: State, ok: bool)
    requires Inv(c, s) && s.boot.Requeue? && s.boot.todo != []
      && s.boot.todo[0] in s.history.listed
    ensures Inv(c, RequeueNextStep(s, ok))
  {
    RequeueNextWorkers(c, s, ok);
    RequeueNextBoot(c, s, ok);
  }

  lemma GoneAreQuiet(c: Config, s: State, order: seq<TaskId>)
    requires Inv(c, s) && s.boot == Requeue([])
      && Enumerates(order, RunningExternal(s.store).Keys)
    ensures var s' := ListExternalStep(s, order);
      forall id :: id in s'.history.gone ==> Quiet(c, s', id) || id in s'.history.early
  {
    var s' := ListExternalStep(s, order);
    forall id | id in s'.history.gone && id !in s'.history.early ensures Quiet(c, s', id) {
      assert StillThere(s, id, s.history.listed[id]);
      assert RowOk(s.store[id]);
      forall w | w in s'.workers ensures s'.workers[w].id != id { assert WorkerOk(c, s, w); }
    }
  }

  lemma ListExternalTodo(c: Config, s: State, order: seq<TaskId>)
    requires Inv(c, s) && s.boot == Requeue([])
      && Enumerates(order, RunningExternal(s.store).Keys)
    ensures TodoInv(ListExternalStep(s, order), RunningExternal(s.store))
  {
    var s' := ListExternalStep(s, order);
    forall id | id in order ensures StillThere(s', id, RunningExternal(s.store)[id]) {
      assert RowOk(s.store[id]);
    }
    forall w | w in s'.workers ensures s'.workers[w].id !in order || s'.workers[w].id in s'.history.early {
      assert WorkerOk(c, s, w);
    }
  }

  lemma ListExternalInv(c: Config, s: State, order: seq<TaskId>)
    requires Inv(c, s) && s.boot == Requeue([])
      && Enumerates(order, RunningExternal(s.store).Keys)
    ensures Inv(c, ListExternalStep(s, order))
  {
    var s' := ListExternalStep(s, order);
    SameWorkersInv(c, s, s');
    ListExternalTodo(c, s, order);
    GoneAreQuiet(c, s, order);
    forall id | id in s.history.listed ensures Accounted(s'.history, id, id in order) {
      assert StillThere(s, id, s.history.listed[id]);
    }
  }

  lemma ResumeOneWorkers(c: Config, s: State, id: TaskId, row: Task)
    requires SlotInv(c, s) && WorkersInv(c, s) && UniqueInv(s) && RowsInv(s) && CancelsInv(s)
    requires StillThere(s, id, row) && row.external != "" && row.status == Running
    requires id in s.history.early || forall w :: w in s.workers ==> s.workers[w].id != id
    ensures var s' := ResumeOne(s, id, row);
      SlotInv(c, s') && WorkersInv(c, s') && UniqueInv(s') && RowsInv(s') && CancelsInv(s')
  {
    assert RowOk(s.store[id]);
    assert LaunchStep(c, s, ResumeOne(s, id, row), id);
    LaunchStepWorkers(c, s, ResumeOne(s, id, row), id);
  }

  lemma ResumeOneQuiet(c: Config, s: State, id: TaskId, row: Task, x: TaskId)
    requires Quiet(c, s, x) && x != id && s.nextWorker !in s.workers
    ensures Quiet(c, ResumeOne(s, id, row), x)
  {
  }

  lemma ResumeOneTodo(s: State, id: TaskId, row: Task, rows: map<TaskId, Task>)
    requires TodoInv(s, rows) && id !in Todo(s) && s.nextWorker !in s.workers
    ensures TodoInv(ResumeOne(s, id, row), rows)
  {
    var s' := ResumeOne(s, id, row);
    forall x | x in Todo(s') ensures StillThere(s', x, rows[x]) {
      assert StillThere(s, x, rows[x]);
    }
  }

  lemma ResumeNextWorkers(c: Config, s: State)
    requires SlotInv(c, s) && WorkersInv(c, s) && UniqueInv(s) && RowsInv(s) && CancelsInv(s) && BootInv(c, s)
    requires s.boot.Resume? && s.boot.todo != [] && s.boot.todo[0] in s.boot.rows
    ensures var s' := ResumeNextStep(s);
      SlotInv(c, s') && WorkersInv(c, s') && UniqueInv(s') && RowsInv(s') && CancelsInv(s')
  {
    var id := s.boot.todo[0];
    var rest := s.(boot := s.boot.(todo := s.boot.todo[1..]));
    assert id in Todo(s) && StillThere(s, id, s.boot.rows[id]);
    SameWorkersInv(c, s, rest);
    ResumeOneWorkers(c, rest, id, s.boot.rows[id]);
  }

  lemma ResumeNextBoot(c: Config, s: State)
    requires s.boot.Resume? && s.boot.todo != [] && s.boot.todo[0] in s.boot.rows
    requires BootInv(c, s) && s.nextWorker !in s.workers
    ensures BootInv(c, ResumeNextStep(s))
  {
    var id := s.boot.todo[0];
    var rest := s.(boot := s.boot.(todo := s.boot.todo[1..]));
    TailOf(s.boot.todo);
    assert TodoInv(rest, s.boot.rows);
    ResumeOneTodo(rest, id, s.boot.rows[id], s.boot.rows);
    ResumeNextGone(c, s);
  }

  lemma ResumeNextInv(c: Config, s: State)
    requires Inv(c, s)
    requires s.boot.Resume? && s.boot.todo != [] && s.boot.todo[0] in s.boot.rows
    ensures Inv(c, ResumeNextStep(s))
  {
    NextWorkerIsNew(c, s);
    ResumeNextWorkers(c, s);
    ResumeNextBoot(c, s);
  }

  lemma ResumeNextGone(c: Config, s: State)
    requires s.boot.Resume? && s.boot.todo != [] && s.boot.todo[0] in s.boot.rows
    requires BootInv(c, s) && s.nextWorker !in s.workers
    ensures forall x :: x in s.history.gone ==> Quiet(c, ResumeNextStep(s), x) || x in s.history.early
  {
    var id := s.boot.todo[0];
    var rest := s.(boot := s.boot.(todo := s.boot.todo[1..]));
    TailOf(s.boot.todo);
    forall x | x in s.history.gone && x !in s.history.early ensures Quiet(c, ResumeNextStep(s), x) {
      assert Quiet(c, s, x);
      assert Quiet(c, rest, x);
      ResumeOneQuiet(c, rest, id, s.boot.rows[id], x);
    }
  }

  lemma StartDoneInv(c: Config, s: State)
    requires Inv(c, s) && s.boot.Resume? && s.boot.todo == []
    ensures Inv(c, s.(boot := Serving))
  {
    var s' := s.(boot := Serving);
    SameWorkersInv(c, s, s');
    forall x | x in s.history.gone && x !in s.history.early ensures Quiet(c, s', x) { assert Quiet(c, s, x); }
  }

  lemma StopInv(c: Config, s: State)
    requires Inv(c, s)
    ensures Inv(c, s.(stopped := true))
  {
    var s' := s.(stopped := true);
    assert Holders(s') == Holders(s);
    forall w | w in s'.workers ensures WorkerOk(c, s', w) { assert WorkerOk(c, s, w); }
    forall j | j in s'.cancels ensures CancelOk(s', j) { assert CancelOk(s, j); }
    forall x | Quiet(c, s, x) ensures Quiet(c, s', x) {}
    BootKept(c, s, s');
  }

  lemma NoWorkersInv(c: Config, s: State)
    requires s.workers == map[] && s.tokens == 0 && s.boot == Fresh && s.history.early == {}
    requires RowsInv(s) && CancelsInv(s)
    ensures Inv(c, s)
  {
    assert Holders(s) == {};
  }

  /** Every step of every event keeps the invariant. */
  lemma InvStep(c: Config, s: State, e: Event)
    requires Inv(c, s) && Enabled(c, s, e)
    ensures Inv(c, Next(c, s, e))
  {
    if OfWorker(e) {
      assert WorkerOk(c, s, e.w);
      IsWorkerStep(c, s, e);
      WorkerStepWorkers(c, s, Next(c, s, e), e.w);
      WorkerStepBoot(c, s, Next(c, s, e), e.w);
    } else {
      match e
      case Submit(id, kind, ok) => SubmitInv(c, s, id, kind, ok);
      case SubmitExternal(id, kind, external, ok) => SubmitExternalInv(c, s, id, kind, external, ok);
      case CancelRead(id) => CancelReadInv(c, s, id);
      case CancelWrite(k, ok) => CancelWriteInv(c, s, k, ok);
      case ListPending(order) => ListPendingInv(c, s, order);
      case RequeueNext(ok) => RequeueNextInv(c, s, ok);
      case ListExternal(order) => ListExternalInv(c, s, order);
      case ResumeNext => ResumeNextInv(c, s);
      case StartDone => StartDoneInv(c, s);
      case Stop => StopInv(c, s);
      case NewManager =>
        forall j | j in s.cancels ensures CancelOk(Next(c, s, e), j) { assert CancelOk(s, j); }
        NoWorkersInv(c, Next(c, s, e));
      case Crash => NoWorkersInv(c, Next(c, s, e));
    }
  }

  lemma {:induction false} InvRun(c: Config, s: State, es: seq<Event>)
    requires Inv(c, s) && Legal(c, s, es)
    ensures Inv(c, Run(c, s, es))
    decreases |es|
  {
    if es != [] {
      InvStep(c, s, es[0]);
      InvRun(c, Next(c, s, es[0]), es[1..]);
    }
  }
}
