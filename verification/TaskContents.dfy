/** What the rows of the task table hold over whole runs: where type, external ID and
    output of a row come from, and why it has failed or been cancelled. */
module TaskContents {
  import opened Options
  import opened TaskModel
  import opened TaskSafety
  import opened TaskRuns

  /** What the events of a run have told about tasks: type and external ID at the
      submission, the outputs of progress callbacks, the outputs of polls that reported
      completion, and which rows a cancel has written. */
  datatype Facts = Facts(
    born: map<TaskId, (string, string)>,
    told: set<(TaskId, string)>,
    polled: set<(TaskId, string)>,
    cancelled: set<TaskId>)

  const NO_FACTS := Facts(map[], {}, {}, {})

  ghost function Learn(s: State, f: Facts, e: Event): Facts {
    match e
    case Submit(id, kind, true) => f.(born := f.born[id := (kind, "")])
    case SubmitExternal(id, kind, external, true) => f.(born := f.born[id := (kind, external)])
    case Progress(w, _, Some(output), _) =>
      if w in s.workers then f.(told := f.told + {(s.workers[w].id, output)}) else f
    case PollTick(w, PollOk(_, true, output), _) =>
      if w in s.workers then f.(polled := f.polled + {(s.workers[w].id, output)}) else f
    case CancelWrite(k, true) =>
      if k in s.cancels then f.(cancelled := f.cancelled + {s.cancels[k].id}) else f
    case _ => f
  }

  ghost function Learned(c: Config, s: State, f: Facts, es: seq<Event>): Facts
    requires Legal(c, s, es)
    decreases |es|
  {
    if es == [] then f else Learned(c, Next(c, s, es[0]), Learn(s, f, es[0]), es[1..])
  }

  /** Type and external ID are those of the submission; the output is empty, or a
      callback or a poll has given it. */
  predicate Traced(f: Facts, id: TaskId, t: Task) {
    && id in f.born && t.kind == f.born[id].0 && t.external == f.born[id].1
    && (t.output == "" || (id, t.output) in f.told || (id, t.output) in f.polled)
  }

  /** Which error codes a failed row may carry. */
  predicate CodeOk(c: Config, t: Task, code: string) {
    if t.external == "" then
      (code == "unknown_task_type" && t.kind !in c.executors)
      || (code == "execution_failed" && t.kind in c.executors)
    else
      (code == "unknown_poller" && t.kind !in c.pollers)
      || (code in ["timeout", "max_attempts"] && t.kind in c.pollers)
  }

  predicate Explained(c: Config, f: Facts, id: TaskId, t: Task) {
    && Traced(f, id, t)
    && (t.status == Failed ==> t.error.Some? && CodeOk(c, t, t.error.value))
    && (t.status == Completed ==> t.kind in if t.external == "" then c.executors else c.pollers)
    && (t.status == Completed && t.external != "" ==> (id, t.output) in f.polled)
    && (t.status == Cancelled ==> id in f.cancelled)
  }

  /** A goroutine that will still write holds a traced copy, and what it is about to
      write is justified. */
  predicate CopyOk(c: Config, f: Facts, k: Worker) {
    && Traced(f, k.id, k.task)
    && (k.phase.Executing? ==> k.task.kind in c.executors)
    && (k.phase.Polling? || k.phase.Reported? || k.phase.Finishing? ==> k.task.kind in c.pollers)
    && (k.phase.Reported? && k.phase.completed ==> (k.id, k.phase.output) in f.polled)
    && (k.phase.Finishing? ==> (k.id, k.phase.output) in f.polled)
  }

  ghost predicate RowsExplained(c: Config, s: State, f: Facts) {
    f.born.Keys == s.store.Keys && forall id :: id in s.store ==> Explained(c, f, id, s.store[id])
  }

  ghost predicate WorkersTraced(c: Config, s: State, f: Facts) {
    forall w :: w in s.workers && !s.workers[w].phase.Releasing? ==> CopyOk(c, f, s.workers[w])
  }

  ghost predicate CancelsTraced(s: State, f: Facts) {
    forall k :: k in s.cancels ==> Traced(f, s.cancels[k].id, s.cancels[k].row)
  }

  ghost predicate ListingTraced(s: State, f: Facts) {
    && (forall id :: id in s.history.listed ==> Traced(f, id, s.history.listed[id]))
    && (s.boot.Resume? ==> forall id :: id in s.boot.rows ==> Traced(f, id, s.boot.rows[id]))
  }

  ghost predicate ContentsInv(c: Config, s: State, f: Facts) {
    RowsExplained(c, s, f) && WorkersTraced(c, s, f) && CancelsTraced(s, f) && ListingTraced(s, f)
  }

  /** `f'` knows at least what `f` does. */
  predicate Extends(f: Facts, f': Facts) {
    && (forall id :: id in f.born ==> id in f'.born && f'.born[id] == f.born[id])
    && f.told <= f'.told && f.polled <= f'.polled && f.cancelled <= f'.cancelled
  }

  lemma LearnExtends(c: Config, s: State, f: Facts, e: Event)
    requires RowsExplained(c, s, f) && Enabled(c, s, e)
    ensures Extends(f, Learn(s, f, e))
  {
  }

  /** Knowing more keeps the invariant, if no task is born. */
  lemma MoreFacts(c: Config, s: State, f: Facts, f': Facts)
    requires ContentsInv(c, s, f) && Extends(f, f') && f'.born == f.born
    ensures ContentsInv(c, s, f')
  {
  }

  // ---------- one worker ----------

  /** Worker `w` changes or leaves, and at most its own row is written. */
  ghost predicate WorkerWrites(c: Config, s: State, s': State, f: Facts, w: WorkerId) {
    && w in s.workers && s'.workers - {w} == s.workers - {w}
    && s'.cancels == s.cancels && s'.history == s.history && s'.boot == s.boot
    && s'.store.Keys == s.store.Keys
    && (forall id :: id in s.store && id != s.workers[w].id ==> s'.store[id] == s.store[id])
    && (s.workers[w].id in s.store ==> Explained(c, f, s.workers[w].id, s'.store[s.workers[w].id]))
    && (w in s'.workers && !s'.workers[w].phase.Releasing? ==> CopyOk(c, f, s'.workers[w]))
  }

  lemma WorkerContents(c: Config, s: State, s': State, f: Facts, w: WorkerId)
    requires ContentsInv(c, s, f) && WorkerWrites(c, s, s', f, w)
    ensures ContentsInv(c, s', f)
  {
    forall v | v in s'.workers && !s'.workers[v].phase.Releasing? ensures CopyOk(c, f, s'.workers[v]) {
      if v != w { OtherWorkers(s, s', w); }
    }
  }

  /** What the steps of one worker rely on. */
  predicate Ready(c: Config, s: State, f: Facts, w: WorkerId) {
    && w in s.workers
    && s.workers[w].id in s.store
    && Explained(c, f, s.workers[w].id, s.store[s.workers[w].id])
    && (!s.workers[w].phase.Releasing? ==> CopyOk(c, f, s.workers[w]))
    && (s.workers[w].IsExecutor() <==> s.workers[w].task.external == "")
    && (s.workers[w].phase.Executing? || !s.workers[w].IsExecutor() ==> s.workers[w].task.status == Running)
  }

  lemma AllReady(c: Config, s: State, f: Facts, w: WorkerId)
    requires Inv(c, s) && ContentsInv(c, s, f) && w in s.workers
    ensures Ready(c, s, f, w)
  {
    assert WorkerOk(c, s, w);
  }

  lemma ExitWrites(c: Config, s: State, f: Facts, w: WorkerId)
    requires Ready(c, s, f, w)
    ensures WorkerWrites(c, s, Exit(s, w), f, w)
    ensures s.tokens > 0 ==> WorkerWrites(c, s, ReleaseStep(s, w), f, w)
  {
  }

  lemma AcquireSlotWrites(c: Config, s: State, f: Facts, w: WorkerId)
    requires Ready(c, s, f, w) && InPhase(s, w, Queued)
    ensures WorkerWrites(c, s, AcquireSlotStep(s, w), f, w)
  {
  }

  lemma BeginWrites(c: Config, s: State, f: Facts, w: WorkerId, ok: bool)
    requires Ready(c, s, f, w) && InPhase(s, w, Holding)
    ensures WorkerWrites(c, s, BeginStep(c, s, w, ok), f, w)
  {
  }

  lemma ProgressWrites(c: Config, s: State, f: Facts, w: WorkerId, progress: int, newOutput: Option<string>, ok: bool)
    requires Ready(c, s, f, w) && InPhase(s, w, Executing)
    requires newOutput.Some? ==> (s.workers[w].id, newOutput.value) in f.told
    ensures WorkerWrites(c, s, ProgressStep(s, w, progress, newOutput, ok), f, w)
  {
  }

  lemma FinishWrites(c: Config, s: State, f: Facts, w: WorkerId, failed: bool, now: int, ok: bool)
    requires Ready(c, s, f, w) && InPhase(s, w, Executing)
    ensures WorkerWrites(c, s, FinishStep(s, w, failed, now, ok), f, w)
  {
  }

  lemma PollStartWrites(c: Config, s: State, f: Facts, w: WorkerId, ok: bool)
    requires Ready(c, s, f, w) && InPhase(s, w, Starting)
    ensures WorkerWrites(c, s, PollStartStep(c, s, w, ok), f, w)
  {
  }

  lemma PollFailWrites(c: Config, s: State, f: Facts, w: WorkerId, code: string, ok: bool)
    requires Ready(c, s, f, w) && s.workers[w].phase.Polling? && code in ["timeout", "max_attempts"]
    ensures WorkerWrites(c, s, PollFailStep(s, w, code, ok), f, w)
  {
  }

  lemma PollTickWrites(c: Config, s: State, f: Facts, w: WorkerId, result: PollResult, ok: bool)
    requires Ready(c, s, f, w) && s.workers[w].phase.Polling?
    requires result.PollOk? && result.completed ==> (s.workers[w].id, result.output) in f.polled
    ensures WorkerWrites(c, s, PollTickStep(c, s, w, result, ok), f, w)
  {
    PollFailWrites(c, s, f, w, "max_attempts", ok);
  }

  lemma ApplyReportWrites(c: Config, s: State, f: Facts, w: WorkerId, ok: bool)
    requires Ready(c, s, f, w) && s.workers[w].phase.Reported?
    ensures WorkerWrites(c, s, ApplyReportStep(s, w, ok), f, w)
  {
  }

  lemma SaveCompletedWrites(c: Config, s: State, f: Facts, w: WorkerId, now: int, ok: bool)
    requires Ready(c, s, f, w) && s.workers[w].phase.Finishing?
    ensures WorkerWrites(c, s, SaveCompletedStep(s, w, now, ok), f, w)
  {
  }

  lemma IsWorkerWrite(c: Config, s: State, f: Facts, e: Event)
    requires Enabled(c, s, e) && OfWorker(e) && Ready(c, s, f, e.w)
    requires e.Progress? && e.newOutput.Some? ==> (s.workers[e.w].id, e.newOutput.value) in f.told
    requires e.PollTick? && e.result.PollOk? && e.result.completed ==> (s.workers[e.w].id, e.result.output) in f.polled
    ensures WorkerWrites(c, s, Next(c, s, e), f, e.w)
  {
    match e
    case AcquireSlot(w) => AcquireSlotWrites(c, s, f, w);
    case QuitQueued(w) => ExitWrites(c, s, f, w);
    case Begin(w, ok) => BeginWrites(c, s, f, w, ok);
    case Progress(w, progress, newOutput, ok) => ProgressWrites(c, s, f, w, progress, newOutput, ok);
    case Finish(w, failed, now, ok) => FinishWrites(c, s, f, w, failed, now, ok);
    case Release(w) => ExitWrites(c, s, f, w);
    case PollStart(w, ok) => PollStartWrites(c, s, f, w, ok);
    case PollStop(w) => ExitWrites(c, s, f, w);
    case PollTimeout(w, ok) => PollFailWrites(c, s, f, w, "timeout", ok);
    case PollTick(w, result, ok) => PollTickWrites(c, s, f, w, result, ok);
    case ApplyReport(w, ok) => ApplyReportWrites(c, s, f, w, ok);
    case SaveCompleted(w, now, ok) => SaveCompletedWrites(c, s, f, w, now, ok);
  }

  lemma LearnOfWorker(s: State, f: Facts, e: Event)
    requires OfWorker(e) && e.w in s.workers
    ensures var f' := Learn(s, f, e);
      && Extends(f, f') && f'.born == f.born
      && (e.Progress? && e.newOutput.Some? ==> (s.workers[e.w].id, e.newOutput.value) in f'.told)
      && (e.PollTick? && e.result.PollOk? && e.result.completed ==>
            (s.workers[e.w].id, e.result.output) in f'.polled)
  {
  }

  lemma WorkerStepContents(c: Config, s: State, f: Facts, e: Event)
    requires Inv(c, s) && ContentsInv(c, s, f) && Enabled(c, s, e) && OfWorker(e) && e.w in s.workers
    ensures ContentsInv(c, Next(c, s, e), Learn(s, f, e))
  {
    var f' := Learn(s, f, e);
    LearnOfWorker(s, f, e);
    MoreFacts(c, s, f, f');
    AllReady(c, s, f', e.w);
    IsWorkerWrite(c, s, f', e);
    WorkerContents(c, s, Next(c, s, e), f', e.w);
  }

  // ---------- the other steps ----------

  lemma BornExtends(c: Config, s: State, f: Facts, id: TaskId, kind: string, external: string)
    requires ContentsInv(c, s, f) && id !in s.store
    ensures var f' := f.(born := f.born[id := (kind, external)]);
      && WorkersTraced(c, s, f') && CancelsTraced(s, f') && ListingTraced(s, f')
      && f'.born.Keys == s.store.Keys + {id} && forall x :: x in s.store ==> Explained(c, f', x, s.store[x])
  {
  }

  lemma SavedExplained(c: Config, s: State, f: Facts, id: TaskId, row: Task)
    requires f.born.Keys == s.store.Keys + {id} && Explained(c, f, id, row)
    requires forall x :: x in s.store && x != id ==> Explained(c, f, x, s.store[x])
    ensures RowsExplained(c, Saved(s, id, row, true), f)
  {
  }

  lemma LaunchTraced(c: Config, s: State, f: Facts, id: TaskId, row: Task, phase: Phase)
    requires WorkersTraced(c, s, f) && s.nextWorker !in s.workers && CopyOk(c, f, Worker(id, row, phase))
    ensures WorkersTraced(c, Launch(s, id, row, phase), f)
  {
  }

  lemma SubmitContents(c: Config, s: State, f: Facts, id: TaskId, kind: string, ok: bool)
    requires ContentsInv(c, s, f) && id !in s.store && s.nextWorker !in s.workers
    ensures ContentsInv(c, SubmitStep(s, id, kind, ok), if ok then f.(born := f.born[id := (kind, "")]) else f)
  {
    if ok {
      var f', row := f.(born := f.born[id := (kind, "")]), Task(kind, Pending, 0, "", "", None, None);
      BornExtends(c, s, f, id, kind, "");
      SavedExplained(c, Noted(s, id, false), f', id, row);
      LaunchTraced(c, Saved(Noted(s, id, false), id, row, true), f', id, row, Queued);
    }
  }

  lemma SubmitExternalContents(c: Config, s: State, f: Facts, id: TaskId, kind: string, external: string, ok: bool)
    requires ContentsInv(c, s, f) && id !in s.store && s.nextWorker !in s.workers
    ensures ContentsInv(c, SubmitExternalStep(s, id, kind, external, ok),
                        if ok then f.(born := f.born[id := (kind, external)]) else f)
  {
    if ok {
      var f', row := f.(born := f.born[id := (kind, external)]), Task(kind, Running, 0, external, "", None, None);
      BornExtends(c, s, f, id, kind, external);
      SavedExplained(c, Noted(s, id, true), f', id, row);
      LaunchTraced(c, Saved(Noted(s, id, true), id, row, true), f', id, row, Starting);
    }
  }

  lemma CancelReadContents(c: Config, s: State, f: Facts, id: TaskId)
    requires ContentsInv(c, s, f)
    ensures ContentsInv(c, CancelReadStep(s, id), f)
  {
  }

  lemma CancelWriteContents(c: Config, s: State, f: Facts, k: CancelId, ok: bool)
    requires ContentsInv(c, s, f) && k in s.cancels && CancelOk(s, k)
    requires ok ==> s.cancels[k].id in f.cancelled
    ensures ContentsInv(c, CancelWriteStep(s, k, ok), f)
  {
  }

  lemma ListingContents(c: Config, s: State, f: Facts, e: Event)
    requires ContentsInv(c, s, f) && Enabled(c, s, e) && (e.ListPending? || e.ListExternal?)
    ensures ContentsInv(c, Next(c, s, e), f)
  {
  }

  lemma RequeueContents(c: Config, s: State, f: Facts, id: TaskId, row: Task, ok: bool)
    requires ContentsInv(c, s, f) && s.nextWorker !in s.workers && id in s.store
    requires Traced(f, id, row) && (row.status == Pending || row.status == Running)
    ensures ContentsInv(c, RequeueOne(s, id, row, ok), f)
  {
    var reset := row.(status := Pending);
    SavedExplained(c, s, f, id, reset);
    LaunchTraced(c, Saved(s, id, reset, true), f, id, reset, Queued);
    LaunchTraced(c, s, f, id, row, Queued);
  }

  lemma RequeueNextContents(c: Config, s: State, f: Facts, ok: bool)
    requires Inv(c, s) && ContentsInv(c, s, f)
    requires s.boot.Requeue? && s.boot.todo != [] && s.boot.todo[0] in s.history.listed
    ensures ContentsInv(c, RequeueNextStep(s, ok), f)
  {
    var id := s.boot.todo[0];
    var rest := s.(boot := Requeue(s.boot.todo[1..]));
    NextWorkerIsNew(c, s);
    assert StillThere(s, id, s.history.listed[id]);
    assert ContentsInv(c, rest, f);
    RequeueContents(c, rest, f, id, s.history.listed[id], ok);
  }

  lemma ResumeContents(c: Config, s: State, f: Facts)
    requires ContentsInv(c, s, f) && s.nextWorker !in s.workers
    requires s.boot.Resume? && s.boot.todo != [] && s.boot.todo[0] in s.boot.rows
    ensures ContentsInv(c, ResumeNextStep(s), f)
  {
  }

  lemma OtherStepContents(c: Config, s: State, f: Facts, e: Event)
    requires Inv(c, s) && ContentsInv(c, s, f) && Enabled(c, s, e) && !OfWorker(e)
    ensures ContentsInv(c, Next(c, s, e), Learn(s, f, e))
  {
    NextWorkerIsNew(c, s);
    match e
    case Submit(id, kind, ok) => SubmitContents(c, s, f, id, kind, ok);
    case SubmitExternal(id, kind, external, ok) => SubmitExternalContents(c, s, f, id, kind, external, ok);
    case CancelRead(id) => CancelReadContents(c, s, f, id);
    case CancelWrite(k, ok) =>
      assert CancelOk(s, k);
      MoreFacts(c, s, f, Learn(s, f, e));
      CancelWriteContents(c, s, Learn(s, f, e), k, ok);
    case ListPending(_) => ListingContents(c, s, f, e);
    case ListExternal(_) => ListingContents(c, s, f, e);
    case RequeueNext(ok) => RequeueNextContents(c, s, f, ok);
    case ResumeNext => ResumeContents(c, s, f);
    case _ =>
  }

  lemma ContentsStep(c: Config, s: State, f: Facts, e: Event)
    requires Inv(c, s) && ContentsInv(c, s, f) && Enabled(c, s, e)
    ensures ContentsInv(c, Next(c, s, e), Learn(s, f, e))
    ensures Extends(f, Learn(s, f, e))
  {
    LearnExtends(c, s, f, e);
    if OfWorker(e) {
      WorkerStepContents(c, s, f, e);
    } else {
      OtherStepContents(c, s, f, e);
    }
  }

  lemma {:induction false} ContentsRun(c: Config, s: State, f: Facts, es: seq<Event>)
    requires Inv(c, s) && ContentsInv(c, s, f) && Legal(c, s, es)
    ensures ContentsInv(c, Run(c, s, es), Learned(c, s, f, es)) && Extends(f, Learned(c, s, f, es))
    decreases |es|
  {
    if es != [] {
      ContentsStep(c, s, f, es[0]);
      InvStep(c, s, es[0]);
      ContentsRun(c, Next(c, s, es[0]), Learn(s, f, es[0]), es[1..]);
    }
  }

  predicate Submits(e: Event, id: TaskId, kind: string, external: string) {
    || (external == "" && e == Submit(id, kind, true))
    || (external != "" && e == SubmitExternal(id, kind, external, true))
  }

  ghost predicate SubmittedIn(es: seq<Event>, id: TaskId, kind: string, external: string) {
    exists k :: 0 <= k < |es| && Submits(es[k], id, kind, external)
  }

  lemma SubmittedLater(e: Event, es: seq<Event>, id: TaskId, kind: string, external: string)
    requires SubmittedIn(es, id, kind, external)
    ensures SubmittedIn([e] + es, id, kind, external)
  {
    var k :| 0 <= k < |es| && Submits(es[k], id, kind, external);
    assert ([e] + es)[k + 1] == es[k];
  }

  lemma LearnsBirth(c: Config, s: State, f: Facts, e: Event, id: TaskId)
    requires Enabled(c, s, e) && id in Learn(s, f, e).born && id !in f.born
    ensures var b := Learn(s, f, e).born[id]; Submits(e, id, b.0, b.1)
  {
  }

  lemma {:induction false} BornOfSubmission(c: Config, s: State, f: Facts, es: seq<Event>, id: TaskId)
    requires Inv(c, s) && ContentsInv(c, s, f) && Legal(c, s, es)
    requires id in Learned(c, s, f, es).born && id !in f.born
    ensures var b := Learned(c, s, f, es).born[id]; SubmittedIn(es, id, b.0, b.1)
    decreases |es|
  {
    if es != [] {
      var s1, f1 := Next(c, s, es[0]), Learn(s, f, es[0]);
      ContentsStep(c, s, f, es[0]);
      InvStep(c, s, es[0]);
      var b := Learned(c, s1, f1, es[1..]).born[id];
      if id in f1.born {
        ContentsRun(c, s1, f1, es[1..]);
        LearnsBirth(c, s, f, es[0], id);
      } else {
        BornOfSubmission(c, s1, f1, es[1..], id);
        SubmittedLater(es[0], es[1..], id, b.0, b.1);
        assert [es[0]] + es[1..] == es;
      }
    }
  }

  /** From the empty table: the type and the external ID of a row never change. */
  lemma OriginsNeverChange(c: Config, a: seq<Event>, b: seq<Event>, id: TaskId)
    requires Legal(c, Initial(), a) && Legal(c, Run(c, Initial(), a), b) && id in Run(c, Initial(), a).store
    ensures var t := Run(c, Initial(), a).store[id]; var s' := Run(c, Run(c, Initial(), a), b);
      id in s'.store && s'.store[id].kind == t.kind && s'.store[id].external == t.external
  {
    InitialInv(c);
    InvRun(c, Initial(), a);
    ContentsRun(c, Initial(), NO_FACTS, a);
    ContentsRun(c, Run(c, Initial(), a), Learned(c, Initial(), NO_FACTS, a), b);
  }

  /** Over every run from the empty table: the rows are those of the successful
      submissions; each has the type and the external ID of its submission, and an
      output only from a callback or a poll of its own; a completed external row has
      the output of a poll that reported its completion; a failed row has a code that
      fits its type and kind; a cancelled row was written by a cancel. */
  lemma RowsAreExplained(c: Config, es: seq<Event>)
    requires Legal(c, Initial(), es)
    ensures RowsExplained(c, Run(c, Initial(), es), Learned(c, Initial(), NO_FACTS, es))
    ensures forall id :: id in Run(c, Initial(), es).store ==>
      var t := Run(c, Initial(), es).store[id];
      SubmittedIn(es, id, t.kind, t.external)
  {
    InitialInv(c);
    ContentsRun(c, Initial(), NO_FACTS, es);
    forall id | id in Run(c, Initial(), es).store
      ensures var t := Run(c, Initial(), es).store[id]; SubmittedIn(es, id, t.kind, t.external)
    {
      BornOfSubmission(c, Initial(), NO_FACTS, es, id);
    }
  }
}
