/** Theorems about whole runs of the task manager. */
module TaskRuns {
  import opened Options
  import opened TaskModel
  import opened TaskSafety

  /** Every reachable state, whatever the interleaving, the failed writes, the
      stops, the restarts and the crashes: slots in use are counted by the
      semaphore and bounded, no task has two workers unless it was submitted too
      early, an external task is never pending, a completed row has progress 100
      and a completion time, and no poller has called PollStatus more often than
      allowed. */
  lemma ReachableStates(c: Config, es: seq<Event>)
    requires Legal(c, Initial(), es)
    ensures var s := Run(c, Initial(), es);
      && s.tokens == |set w | w in s.workers && s.workers[w].HoldsSlot()|
      && s.tokens <= c.maxConcurrent
      && (forall v, w :: v in s.workers && w in s.workers && v != w ==>
            s.workers[v].id != s.workers[w].id || s.workers[v].id in s.history.early)
      && (forall w :: w in s.workers ==>
            s.workers[w].id in s.store
            && (s.workers[w].IsExecutor() <==> s.store[s.workers[w].id].external == "")
            && CallsBounded(c, s.workers[w].phase))
      && (forall id :: id in s.store ==> RowOk(s.store[id]))
  {
    InitialInv(c);
    InvRun(c, Initial(), es);
    var s := Run(c, Initial(), es);
    assert Holders(s) == set w | w in s.workers && s.workers[w].HoldsSlot();
    forall w | w in s.workers ensures WorkerOk(c, s, w) {}
  }

  // ---------- submissions and Start ----------

  /** A submission does not come before the listing that would find its task. */
  predicate Timely(s: State, e: Event) {
    && (e.Submit? && e.ok ==> !TooEarly(s.boot, false))
    && (e.SubmitExternal? && e.ok ==> !TooEarly(s.boot, true))
  }

  ghost predicate TimelyRun(c: Config, s: State, es: seq<Event>)
    requires Legal(c, s, es)
    decreases |es|
  {
    es == [] || (Timely(s, es[0]) && TimelyRun(c, Next(c, s, es[0]), es[1..]))
  }

  /** A step notes at most the task that it submits too early. */
  lemma EarlyStep(c: Config, s: State, e: Event)
    requires Inv(c, s) && Enabled(c, s, e)
    ensures var s' := Next(c, s, e);
      forall id :: id in s'.history.early && id !in s.history.early ==> id !in s.store && !Timely(s, e)
  {
    if OfWorker(e) {
      assert WorkerOk(c, s, e.w);
      IsWorkerStep(c, s, e);
    } else {
      EarlyStepElsewhere(c, s, e);
    }
  }

  lemma EarlyStepElsewhere(c: Config, s: State, e: Event)
    requires Enabled(c, s, e) && !OfWorker(e)
    ensures var s' := Next(c, s, e);
      forall id :: id in s'.history.early && id !in s.history.early ==> id !in s.store && !Timely(s, e)
  {
    match e
    case Submit(_, _, _) =>
    case SubmitExternal(_, _, _, _) =>
    case CancelRead(_) =>
    case CancelWrite(_, _) =>
    case RequeueNext(_) =>
    case ListExternal(_) =>
    case ResumeNext =>
    case _ =>
  }

  lemma {:induction false} TimelyRunsHaveNoEarly(c: Config, s: State, es: seq<Event>)
    requires Inv(c, s) && Legal(c, s, es) && TimelyRun(c, s, es) && s.history.early == {}
    ensures Inv(c, Run(c, s, es)) && Run(c, s, es).history.early == {}
    decreases |es|
  {
    if es != [] {
      InvStep(c, s, es[0]);
      EarlyStep(c, s, es[0]);
      TimelyRunsHaveNoEarly(c, Next(c, s, es[0]), es[1..]);
    }
  }

  /** With timely submissions only, no task ever has two workers. */
  lemma TimelyRunsAreUnique(c: Config, es: seq<Event>)
    requires Legal(c, Initial(), es) && TimelyRun(c, Initial(), es)
    ensures var s := Run(c, Initial(), es);
      forall v, w :: v in s.workers && w in s.workers && v != w ==> s.workers[v].id != s.workers[w].id
  {
    InitialInv(c);
    TimelyRunsHaveNoEarly(c, Initial(), es);
  }

  lemma OtherRowsStay(c: Config, s: State, e: Event)
    requires Enabled(c, s, e) && !OfWorker(e) && (e.CancelWrite? ==> s.cancels[e.cancel].id in s.store)
    ensures s.store.Keys <= Next(c, s, e).store.Keys
  {
  }

  lemma RowsStay(c: Config, s: State, e: Event)
    requires Inv(c, s) && Enabled(c, s, e)
    ensures s.store.Keys <= Next(c, s, e).store.Keys
  {
    if OfWorker(e) {
      assert WorkerOk(c, s, e.w);
      IsWorkerStep(c, s, e);
    } else {
      assert e.CancelWrite? ==> CancelOk(s, e.cancel);
      OtherRowsStay(c, s, e);
    }
  }

  /** A stored task is never noted as early later on. */
  lemma {:induction false} NotEarlyLater(c: Config, s: State, es: seq<Event>, id: TaskId)
    requires Inv(c, s) && Legal(c, s, es) && id in s.store && id !in s.history.early
    ensures Inv(c, Run(c, s, es)) && id !in Run(c, s, es).history.early
    decreases |es|
  {
    if es != [] {
      InvStep(c, s, es[0]);
      EarlyStep(c, s, es[0]);
      RowsStay(c, s, es[0]);
      NotEarlyLater(c, Next(c, s, es[0]), es[1..], id);
    }
  }

  // ---------- a finished task stays finished ----------

  /** Cancels of `id` in flight in `s'` were already in flight in `s`. */
  ghost predicate NoNewCancels(s: State, s': State, id: TaskId) {
    forall k :: k in s'.cancels && s'.cancels[k].id == id ==> k in s.cancels && s.cancels[k] == s'.cancels[k]
  }

  ghost predicate OwnRowOrCancel(s: State, s': State, id: TaskId)
    requires id in s.store && id in s'.store
  {
    || s'.store[id] == s.store[id]
    || (exists k :: k in s.cancels && s.cancels[k].id == id && s.cancels[k].row == s'.store[id])
  }

  lemma SubmittedKeepsQuiet(c: Config, s: State, id: TaskId, kind: string, external: string, ok: bool, x: TaskId)
    requires Inv(c, s) && id !in s.store && Quiet(c, s, x)
    ensures var s' := SubmitStep(s, id, kind, ok);
      Quiet(c, s', x) && s'.store[x] == s.store[x] && NoNewCancels(s, s', x)
    ensures var s' := SubmitExternalStep(s, id, kind, external, ok);
      Quiet(c, s', x) && s'.store[x] == s.store[x] && NoNewCancels(s, s', x)
  {
    NextWorkerIsNew(c, s);
  }

  lemma SubmitKeepsQuiet(c: Config, s: State, e: Event, x: TaskId)
    requires Inv(c, s) && Enabled(c, s, e) && (e.Submit? || e.SubmitExternal?) && Quiet(c, s, x)
    ensures var s' := Next(c, s, e);
      Quiet(c, s', x) && s'.store[x] == s.store[x] && NoNewCancels(s, s', x)
  {
    match e
    case Submit(id, kind, ok) => SubmittedKeepsQuiet(c, s, id, kind, "", ok, x);
    case SubmitExternal(id, kind, external, ok) => SubmittedKeepsQuiet(c, s, id, kind, external, ok, x);
  }

  lemma RequeueKeepsQuiet(c: Config, s: State, ok: bool, x: TaskId)
    requires Inv(c, s) && Quiet(c, s, x)
    requires s.boot.Requeue? && s.boot.todo != [] && s.boot.todo[0] in s.history.listed
    ensures var s' := RequeueNextStep(s, ok);
      Quiet(c, s', x) && s'.store[x] == s.store[x] && NoNewCancels(s, s', x)
  {
    var id := s.boot.todo[0];
    var rest := s.(boot := Requeue(s.boot.todo[1..]));
    NextWorkerIsNew(c, s);
    TailOf(s.boot.todo);
    assert Quiet(c, rest, x);
    if x == id {
      RequeueOneWritesNothing(c, rest, id, s.history.listed[id], ok);
    } else {
      RequeueOneKeepsQuiet(c, rest, id, s.history.listed[id], ok, x);
    }
  }

  lemma RequeueOneWritesNothing(c: Config, s: State, x: TaskId, row: Task, ok: bool)
    requires s.nextWorker !in s.workers && Quiet(c, s, x)
    requires row.external != "" || (row.status != Running && c.maxConcurrent == 0)
    ensures var s' := RequeueOne(s, x, row, ok);
      Quiet(c, s', x) && s'.store[x] == s.store[x] && NoNewCancels(s, s', x)
  {
  }

  lemma RequeueOneKeepsQuiet(c: Config, s: State, id: TaskId, row: Task, ok: bool, x: TaskId)
    requires s.nextWorker !in s.workers && Quiet(c, s, x) && x != id
    ensures var s' := RequeueOne(s, id, row, ok);
      Quiet(c, s', x) && s'.store[x] == s.store[x] && NoNewCancels(s, s', x)
  {
  }

  lemma ResumeKeepsQuiet(c: Config, s: State, x: TaskId)
    requires Inv(c, s) && Quiet(c, s, x)
    requires s.boot.Resume? && s.boot.todo != [] && s.boot.todo[0] in s.boot.rows
    ensures var s' := ResumeNextStep(s);
      Quiet(c, s', x) && s'.store[x] == s.store[x] && NoNewCancels(s, s', x)
  {
    NextWorkerIsNew(c, s);
    TailOf(s.boot.todo);
  }

  lemma QuietStep(c: Config, s: State, e: Event, id: TaskId)
    requires Inv(c, s) && Enabled(c, s, e) && Quiet(c, s, id)
    ensures var s' := Next(c, s, e);
      Quiet(c, s', id) && OwnRowOrCancel(s, s', id) && NoNewCancels(s, s', id)
  {
    if OfWorker(e) {
      assert WorkerOk(c, s, e.w);
      IsWorkerStep(c, s, e);
      WorkerStepQuiet(c, s, Next(c, s, e), e.w, id);
    } else {
      match e
      case Submit(_, _, _) => SubmitKeepsQuiet(c, s, e, id);
      case SubmitExternal(_, _, _, _) => SubmitKeepsQuiet(c, s, e, id);
      case CancelRead(_) => CancelReadKeepsQuiet(c, s, e.id, id);
      case CancelWrite(k, ok) => CancelWriteKeepsQuiet(c, s, k, ok, id);
      case RequeueNext(ok) => RequeueKeepsQuiet(c, s, ok, id);
      case ResumeNext => ResumeKeepsQuiet(c, s, id);
      case _ =>
    }
  }

  lemma CancelReadKeepsQuiet(c: Config, s: State, id: TaskId, x: TaskId)
    requires Quiet(c, s, x)
    ensures var s' := CancelReadStep(s, id);
      Quiet(c, s', x) && s'.store[x] == s.store[x] && NoNewCancels(s, s', x)
  {
  }

  lemma CancelWriteKeepsQuiet(c: Config, s: State, k: CancelId, ok: bool, x: TaskId)
    requires Quiet(c, s, x) && k in s.cancels && CancelOk(s, k)
    ensures var s' := CancelWriteStep(s, k, ok);
      Quiet(c, s', x) && OwnRowOrCancel(s, s', x) && NoNewCancels(s, s', x)
  {
  }

  /** Once nothing can write a terminal row any more, no run, not even through
      restarts and crashes, gives it a worker or changes it, except that a cancel
      that had read it earlier may still turn it into its cancelled copy. */
  lemma {:induction false} FinishedStaysFinished(c: Config, s: State, es: seq<Event>, id: TaskId)
    requires Inv(c, s) && Legal(c, s, es) && Quiet(c, s, id)
    ensures var s' := Run(c, s, es);
      Quiet(c, s', id) && OwnRowOrCancel(s, s', id) && NoNewCancels(s, s', id)
    decreases |es|
  {
    if es != [] {
      var s1 := Next(c, s, es[0]);
      QuietStep(c, s, es[0], id);
      InvStep(c, s, es[0]);
      FinishedStaysFinished(c, s1, es[1..], id);
    }
  }

  // ---------- a worker's exit is final ----------

  /** The store write that the event attempts, if any, succeeds. */
  predicate WriteOk(e: Event) {
    match e
    case Submit(_, _, ok) => ok
    case SubmitExternal(_, _, _, ok) => ok
    case CancelWrite(_, ok) => ok
    case Begin(_, ok) => ok
    case Progress(_, _, _, ok) => ok
    case Finish(_, _, _, ok) => ok
    case PollStart(_, ok) => ok
    case PollTimeout(_, ok) => ok
    case PollTick(_, _, ok) => ok
    case ApplyReport(_, ok) => ok
    case SaveCompleted(_, _, ok) => ok
    case RequeueNext(ok) => ok
    case _ => true
  }

  /** `w` leaves because of stop, or the process dies. */
  predicate StopsWorker(e: Event, w: WorkerId) {
    e == QuitQueued(w) || e == PollStop(w) || e == Crash
  }

  /** Executors about to release their slot have left a final row behind. */
  ghost predicate ReleasingQuiet(c: Config, s: State) {
    forall w :: w in s.workers && s.workers[w].phase.Releasing? ==>
      s.workers[w].id in s.history.early || Quiet(c, s, s.workers[w].id)
  }

  /** The write with which the only worker of a task ends makes its row final. */
  lemma LastWriteIsFinal(c: Config, s: State, e: Event)
    requires Inv(c, s) && Enabled(c, s, e) && OfWorker(e) && WriteOk(e)
    requires !e.QuitQueued? && !e.PollStop? && !e.Release?
    requires e.w in s.workers && s.workers[e.w].id !in s.history.early
    requires var s' := Next(c, s, e); e.w !in s'.workers || s'.workers[e.w].phase.Releasing?
    ensures Quiet(c, Next(c, s, e), s.workers[e.w].id)
  {
    assert WorkerOk(c, s, e.w);
    var id := s.workers[e.w].id;
    WorkersAreNotTodo(c, s, e.w);
    IsWorkerStep(c, s, e);
    OtherWorkers(s, Next(c, s, e), e.w);
    LastWriteIsTerminal(c, s, e);
  }

  lemma WorkersAreNotTodo(c: Config, s: State, w: WorkerId)
    requires BootInv(c, s) && w in s.workers && s.workers[w].id !in s.history.early
    ensures s.workers[w].id !in Todo(s) && !WillWrite(c, s, s.workers[w].id)
  {
  }

  lemma LastWriteIsTerminal(c: Config, s: State, e: Event)
    requires Enabled(c, s, e) && OfWorker(e) && WriteOk(e)
    requires e.w in s.workers && WorkerOk(c, s, e.w)
    requires !e.QuitQueued? && !e.PollStop? && !e.Release?
    requires var s' := Next(c, s, e); e.w !in s'.workers || s'.workers[e.w].phase.Releasing?
    ensures Next(c, s, e).store[s.workers[e.w].id].IsTerminal()
  {
    match e
    case AcquireSlot(w) =>
    case Begin(w, ok) =>
    case Progress(w, _, _, _) =>
    case Finish(w, _, _, _) =>
    case PollStart(w, _) =>
    case PollTimeout(w, _) =>
    case PollTick(w, _, _) =>
    case ApplyReport(w, _) =>
    case SaveCompleted(w, _, _) =>
  }

  /** An event that concerns no worker launches at most one. */
  lemma OtherEventsLaunch(c: Config, s: State, e: Event)
    requires Enabled(c, s, e) && !OfWorker(e) && e != Crash
    ensures var s' := Next(c, s, e);
      || s'.workers == s.workers
      || (s.nextWorker in s'.workers && !s'.workers[s.nextWorker].phase.Releasing?
          && s'.workers == s.workers[s.nextWorker := s'.workers[s.nextWorker]])
  {
    match e
    case Submit(_, _, _) =>
    case SubmitExternal(_, _, _, _) =>
    case CancelRead(_) =>
    case CancelWrite(_, _) =>
    case RequeueNext(_) =>
    case ResumeNext =>
    case _ =>
  }

  lemma OtherEventsKeepWorkers(c: Config, s: State, e: Event, w: WorkerId)
    requires Inv(c, s) && Enabled(c, s, e) && w in s.workers
    requires e != Crash && (OfWorker(e) ==> e.w != w)
    ensures w in Next(c, s, e).workers && Next(c, s, e).workers[w] == s.workers[w]
  {
    if OfWorker(e) {
      assert WorkerOk(c, s, e.w);
      IsWorkerStep(c, s, e);
      OtherWorkers(s, Next(c, s, e), e.w);
    } else {
      NextWorkerIsNew(c, s);
      OtherEventsLaunch(c, s, e);
    }
  }

  lemma NewWorkersAreNotReleasing(c: Config, s: State, e: Event, w: WorkerId)
    requires Inv(c, s) && Enabled(c, s, e) && w in Next(c, s, e).workers && w !in s.workers
    ensures !Next(c, s, e).workers[w].phase.Releasing?
  {
    if OfWorker(e) {
      assert WorkerOk(c, s, e.w);
      IsWorkerStep(c, s, e);
      OtherWorkers(s, Next(c, s, e), e.w);
    } else {
      OtherEventsLaunch(c, s, e);
    }
  }

  /** Only a new manager forgets which tasks came early; it has no workers. */
  lemma EarlyGrows(c: Config, s: State, e: Event)
    requires Inv(c, s) && Enabled(c, s, e) && s.workers != map[] && e != Crash
    ensures s.history.early <= Next(c, s, e).history.early
  {
    if OfWorker(e) {
      assert WorkerOk(c, s, e.w);
      IsWorkerStep(c, s, e);
    } else {
      EarlyGrowsElsewhere(c, s, e);
    }
  }

  lemma EarlyGrowsElsewhere(c: Config, s: State, e: Event)
    requires Enabled(c, s, e) && !OfWorker(e) && s.workers != map[] && e != Crash
    ensures s.history.early <= Next(c, s, e).history.early
  {
    match e
    case Submit(_, _, _) =>
    case SubmitExternal(_, _, _, _) =>
    case CancelRead(_) =>
    case CancelWrite(_, _) =>
    case RequeueNext(_) =>
    case ListExternal(_) =>
    case ResumeNext =>
    case _ =>
  }

  lemma ReleasingQuietStep(c: Config, s: State, e: Event)
    requires Inv(c, s) && Enabled(c, s, e) && WriteOk(e) && ReleasingQuiet(c, s)
    ensures ReleasingQuiet(c, Next(c, s, e))
  {
    var s' := Next(c, s, e);
    forall w | w in s'.workers && s'.workers[w].phase.Releasing? && s'.workers[w].id !in s'.history.early
      ensures Quiet(c, s', s'.workers[w].id)
    {
      if w !in s.workers {
        NewWorkersAreNotReleasing(c, s, e, w);
        assert false;
      } else if OfWorker(e) && e.w == w {
        assert WorkerOk(c, s, w);
        IsWorkerStep(c, s, e);
        LastWriteIsFinal(c, s, e);
      } else if e != Crash {
        EarlyGrows(c, s, e);
        OtherEventsKeepWorkers(c, s, e, w);
        QuietStep(c, s, e, s.workers[w].id);
      }
    }
  }

  /** One worker and one step: it lives on with its task, or its exit is final. */
  lemma StepOrFinal(c: Config, s: State, e: Event, w: WorkerId)
    requires Inv(c, s) && Enabled(c, s, e) && WriteOk(e) && ReleasingQuiet(c, s)
    requires w in s.workers && !StopsWorker(e, w) && s.workers[w].id !in s.history.early
    ensures var s' := Next(c, s, e);
      if w in s'.workers then s'.workers[w].id == s.workers[w].id
      else Quiet(c, s', s.workers[w].id)
  {
    if !(OfWorker(e) && e.w == w) {
      OtherEventsKeepWorkers(c, s, e, w);
    } else {
      assert WorkerOk(c, s, w);
      IsWorkerStep(c, s, e);
      if e.Release? {
        QuietStep(c, s, e, s.workers[w].id);
      } else if w !in Next(c, s, e).workers {
        LastWriteIsFinal(c, s, e);
      }
    }
  }

  /** Under every interleaving: if the store writes of the run succeed and worker
      `w`, alive in `s`, has left in the end other than by stop or crash, its row
      is terminal and can change only through a cancel already in flight, unless
      its task was submitted too early. */
  lemma {:induction false} ExitIsFinal(c: Config, s: State, es: seq<Event>, w: WorkerId)
    requires Inv(c, s) && ReleasingQuiet(c, s) && Legal(c, s, es)
    requires forall i :: 0 <= i < |es| ==> WriteOk(es[i]) && !StopsWorker(es[i], w)
    requires w in s.workers && w !in Run(c, s, es).workers && s.workers[w].id !in s.history.early
    ensures Quiet(c, Run(c, s, es), s.workers[w].id)
    decreases |es|
  {
    var s1 := Next(c, s, es[0]);
    assert WorkerOk(c, s, w);
    EarlyStep(c, s, es[0]);
    InvStep(c, s, es[0]);
    ReleasingQuietStep(c, s, es[0]);
    StepOrFinal(c, s, es[0], w);
    if w in s1.workers {
      ExitIsFinal(c, s1, es[1..], w);
    } else {
      FinishedStaysFinished(c, s1, es[1..], s.workers[w].id);
    }
  }

  /** The hypothesis of ExitIsFinal holds wherever no write has failed yet. */
  lemma {:induction false} ReleasingQuietRun(c: Config, s: State, es: seq<Event>)
    requires Inv(c, s) && ReleasingQuiet(c, s) && Legal(c, s, es)
    requires forall i :: 0 <= i < |es| ==> WriteOk(es[i])
    ensures ReleasingQuiet(c, Run(c, s, es))
    decreases |es|
  {
    if es != [] {
      InvStep(c, s, es[0]);
      ReleasingQuietStep(c, s, es[0]);
      ReleasingQuietRun(c, Next(c, s, es[0]), es[1..]);
    }
  }

  lemma NothingReleasing(c: Config, s: State)
    requires s.workers == map[]
    ensures ReleasingQuiet(c, s)
  {
  }

  /** From the empty table: if all store writes succeed, a worker that is alive after
      the events `a` and has left after `b`, other than by stop or crash, has left a
      final row, unless its task was submitted too early. */
  lemma ExitsAreFinal(c: Config, a: seq<Event>, b: seq<Event>, w: WorkerId)
    requires Legal(c, Initial(), a) && Legal(c, Run(c, Initial(), a), b)
    requires forall i :: 0 <= i < |a| ==> WriteOk(a[i])
    requires forall i :: 0 <= i < |b| ==> WriteOk(b[i]) && !StopsWorker(b[i], w)
    ensures var s := Run(c, Initial(), a); var s' := Run(c, s, b);
      w in s.workers && w !in s'.workers && s.workers[w].id !in s.history.early ==> Quiet(c, s', s.workers[w].id)
  {
    InitialInv(c);
    InvRun(c, Initial(), a);
    NothingReleasing(c, Initial());
    ReleasingQuietRun(c, Initial(), a);
    var s := Run(c, Initial(), a);
    if w in s.workers && w !in Run(c, s, b).workers && s.workers[w].id !in s.history.early {
      ExitIsFinal(c, s, b, w);
    }
  }
}
