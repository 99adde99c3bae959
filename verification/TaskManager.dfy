/** The task manager in the imperative form of the source. Each method is one
    atomic segment of a source function and is proved against its step in
    TaskModel; the loops of Start and of the poller are run over these segments.
    `ok` tells whether the store write of the segment succeeds. */
module TaskManager {
  import opened Options
  import opened TaskModel
  import opened TaskSafety
  import opened TaskRuns
  import opened TaskRestart

  /** The task table, with the Cancel calls that have read a row and have not
      written it back yet. */
  class Repository {
    var rows: map<TaskId, Task>
    var cancels: map<CancelId, Cancel>
    var nextCancel: CancelId

    constructor ()
      ensures rows == map[] && cancels == map[] && nextCancel == 0
    {
      rows, cancels, nextCancel := map[], map[], 0;
    }

    method Update(id: TaskId, row: Task, ok: bool)
      modifies this`rows
      ensures rows == if ok then old(rows)[id := row] else old(rows)
    {
      if ok { rows := rows[id := row]; }
    }

    method UpdateStatus(id: TaskId, status: Status, progress: int, ok: bool)
      modifies this`rows
      ensures rows == if ok && id in old(rows)
                      then old(rows)[id := old(rows)[id].(status := status, progress := progress)]
                      else old(rows)
    {
      if ok && id in rows {
        rows := rows[id := rows[id].(status := status, progress := progress)];
      }
    }
  }

  /** The row is final, unless its task was submitted too early and may have another
      worker. */
  ghost predicate Final(c: Config, s: State, id: TaskId) {
    id in s.history.early || Quiet(c, s, id)
  }

  /** LastWriteIsFinal, for all tasks. */
  lemma LastWriteFinal(c: Config, s: State, e: Event)
    requires Inv(c, s) && Enabled(c, s, e) && OfWorker(e) && WriteOk(e)
    requires !e.QuitQueued? && !e.PollStop? && !e.Release?
    requires e.w in s.workers
    requires var s' := Next(c, s, e); e.w !in s'.workers || s'.workers[e.w].phase.Releasing?
    ensures Final(c, Next(c, s, e), s.workers[e.w].id)
    ensures Next(c, s, e).history.early == s.history.early
  {
    assert WorkerOk(c, s, e.w);
    IsWorkerStep(c, s, e);
    if s.workers[e.w].id !in s.history.early {
      LastWriteIsFinal(c, s, e);
    }
  }

  /** What happens next to a waiting poller. */
  datatype Signal =
    | StopSignal
    | TimeoutSignal(ok: bool)
    | TickSignal(result: PollResult, now: int, ok: bool)

  class Manager {
    const repo: Repository
    const config: Config
    var workers: map<WorkerId, Worker>
    var nextWorker: WorkerId
    var tokens: nat
    var stopped: bool
    var boot: Boot
    var history: History

    function View(): State
      reads this, repo
    {
      State(repo.rows, workers, nextWorker, tokens, repo.cancels, repo.nextCancel, stopped, boot, history)
    }

    constructor (repo: Repository, config: Config)
      ensures this.repo == repo && this.config == config
      ensures View() == FreshManager(repo.rows, repo.cancels, repo.nextCancel)
    {
      this.repo, this.config := repo, config;
      workers, nextWorker, tokens := map[], 0, 0;
      stopped, boot, history := false, Fresh, NO_HISTORY;
    }

    /** `go m.executeTask(task)` and `go m.pollExternalTask(task)`. */
    method Launch(id: TaskId, row: Task, phase: Phase)
      modifies this
      ensures View() == TaskModel.Launch(old(View()), id, row, phase)
    {
      workers := workers[nextWorker := Worker(id, row, phase)];
      nextWorker := nextWorker + 1;
    }

    method Note(id: TaskId, external: bool)
      modifies this`history
      ensures View() == Noted(old(View()), id, external)
    {
      if TooEarly(boot, external) {
        history := history.(early := history.early + {id});
      }
    }

    method Submit(id: TaskId, kind: string, ok: bool)
      requires id !in repo.rows
      modifies this, repo
      ensures View() == Next(config, old(View()), Event.Submit(id, kind, ok))
      ensures !ok ==> repo.rows == old(repo.rows) && workers == old(workers)
      ensures ok ==> id in repo.rows && repo.rows - {id} == old(repo.rows) - {id}
      ensures ok ==>
        var t := repo.rows[id];
        && t.kind == kind && t.status == Pending && t.progress == 0 && t.external == ""
        && t.output == "" && t.error == None && t.completedAt == None
        && workers == old(workers)[old(nextWorker) := Worker(id, t, Queued)]
    {
      var task := NewTask(kind, Pending, "");
      repo.Update(id, task, ok);
      if ok {
        Note(id, false);
        Launch(id, task, Queued);
      }
    }

    method SubmitExternal(id: TaskId, kind: string, external: string, ok: bool)
      requires id !in repo.rows && external != ""
      modifies this, repo
      ensures View() == Next(config, old(View()), Event.SubmitExternal(id, kind, external, ok))
      ensures !ok ==> repo.rows == old(repo.rows) && workers == old(workers)
      ensures ok ==> id in repo.rows && repo.rows - {id} == old(repo.rows) - {id}
      ensures ok ==>
        var t := repo.rows[id];
        && t.kind == kind && t.status == Running && t.progress == 0 && t.external == external
        && t.output == "" && t.error == None && t.completedAt == None
        && workers == old(workers)[old(nextWorker) := Worker(id, t, Starting)]
    {
      var task := NewTask(kind, Running, external);
      repo.Update(id, task, ok);
      if ok {
        Note(id, true);
        Launch(id, task, Starting);
      }
    }

    method CancelRead(id: TaskId) returns (accepted: bool)
      modifies repo
      ensures View() == Next(config, old(View()), Event.CancelRead(id))
      ensures accepted <==> id in repo.rows && (repo.rows[id].status == Pending || repo.rows[id].status == Running)
      ensures repo.rows == old(repo.rows)
      ensures accepted ==>
        repo.cancels == old(repo.cancels)[old(repo.nextCancel) := Cancel(id, repo.rows[id].(status := Cancelled))]
      ensures !accepted ==> repo.cancels == old(repo.cancels)
    {
      if id !in repo.rows || repo.rows[id].IsTerminal() {
        return false;
      }
      var task := repo.rows[id].(status := Cancelled);
      repo.cancels := repo.cancels[repo.nextCancel := Cancel(id, task)];
      repo.nextCancel := repo.nextCancel + 1;
      accepted := true;
    }

    method CancelWrite(k: CancelId, ok: bool)
      requires k in repo.cancels
      modifies repo
      ensures View() == Next(config, old(View()), Event.CancelWrite(k, ok))
      ensures repo.cancels == old(repo.cancels) - {k}
      ensures repo.rows ==
        if ok then old(repo.rows)[old(repo.cancels[k]).id := old(repo.cancels[k]).row] else old(repo.rows)
    {
      var c := repo.cancels[k];
      repo.cancels := repo.cancels - {k};
      repo.Update(c.id, c.row, ok);
    }

    method AcquireSlot(w: WorkerId)
      requires Enabled(config, View(), Event.AcquireSlot(w))
      modifies this
      ensures View() == Next(config, old(View()), Event.AcquireSlot(w))
      ensures tokens == old(tokens) + 1 && workers == old(workers)[w := old(workers[w]).(phase := Holding)]
    {
      tokens := tokens + 1;
      workers := workers[w := workers[w].(phase := Holding)];
    }

    method Leave(w: WorkerId)
      modifies this`workers
      ensures View() == Exit(old(View()), w)
    {
      workers := workers - {w};
    }

    method Release(w: WorkerId)
      requires Enabled(config, View(), Event.Release(w))
      modifies this
      ensures View() == Next(config, old(View()), Event.Release(w))
      ensures tokens == old(tokens) - 1 && workers == old(workers) - {w}
    {
      Leave(w);
      tokens := tokens - 1;
    }

    /** failTask; the caller decides how its goroutine goes on. */
    method FailTask(w: WorkerId, code: string, ok: bool) returns (task: Task)
      requires w in workers
      modifies repo
      ensures task == workers[w].task.(status := Failed, error := Some(code)) == FailedWith(workers[w].task, code)
      ensures repo.rows == if ok then old(repo.rows)[workers[w].id := task] else old(repo.rows)
      ensures View() == Saved(old(View()), workers[w].id, task, ok)
    {
      task := workers[w].task.(status := Failed, error := Some(code));
      repo.Update(workers[w].id, task, ok);
    }

    method Begin(w: WorkerId, ok: bool)
      requires Enabled(config, View(), Event.Begin(w, ok))
      modifies this, repo
      ensures View() == Next(config, old(View()), Event.Begin(w, ok))
      ensures var k := old(workers[w]); var known := k.task.kind in config.executors;
        var t := if known then k.task.(status := Running)
                 else k.task.(status := Failed, error := Some("unknown_task_type"));
        && repo.rows == (if ok then old(repo.rows)[k.id := t] else old(repo.rows))
        && workers == old(workers)[w := Worker(k.id, t, if known && ok then Executing else Releasing)]
    {
      var worker := workers[w];
      if worker.task.kind !in config.executors {
        var failed := FailTask(w, "unknown_task_type", ok);
        workers := workers[w := worker.(task := failed, phase := Releasing)];
        return;
      }
      var task := worker.task.(status := Running);
      repo.Update(worker.id, task, ok);
      workers := workers[w := worker.(task := task, phase := if ok then Executing else Releasing)];
    }

    method OnProgress(w: WorkerId, progress: int, newOutput: Option<string>, ok: bool)
      requires Enabled(config, View(), Event.Progress(w, progress, newOutput, ok))
      modifies this, repo
      ensures View() == Next(config, old(View()), Event.Progress(w, progress, newOutput, ok))
      ensures var k := old(workers[w]);
        && (ok && k.id in old(repo.rows) ==>
              repo.rows == old(repo.rows)[k.id := old(repo.rows)[k.id].(status := k.task.status, progress := progress)])
        && (!ok ==> repo.rows == old(repo.rows))
        && workers == old(workers)[w :=
             k.(task := k.task.(progress := progress,
                                output := if newOutput.Some? then newOutput.value else k.task.output))]
    {
      var task := workers[w].task.(progress := progress);
      if newOutput.Some? {
        task := task.(output := newOutput.value);
      }
      repo.UpdateStatus(workers[w].id, task.status, progress, ok);
      workers := workers[w := workers[w].(task := task)];
    }

    method Finish(w: WorkerId, failed: bool, now: int, ok: bool)
      requires Enabled(config, View(), Event.Finish(w, failed, now, ok))
      modifies this, repo
      ensures View() == Next(config, old(View()), Event.Finish(w, failed, now, ok))
      ensures var k := old(workers[w]);
        var t := if failed then k.task.(status := Failed, error := Some("execution_failed"))
                 else k.task.(status := Completed, progress := 100, completedAt := Some(now));
        && repo.rows == (if ok then old(repo.rows)[k.id := t] else old(repo.rows))
        && workers == old(workers)[w := Worker(k.id, t, Releasing)]
    {
      var task: Task;
      if failed {
        task := FailTask(w, "execution_failed", ok);
      } else {
        task := workers[w].task.(status := Completed, progress := 100, completedAt := Some(now));
        repo.Update(workers[w].id, task, ok);
      }
      workers := workers[w := workers[w].(task := task, phase := Releasing)];
    }

    /** The executor at work: any number of progress callbacks. */
    method Execute(w: WorkerId, reports: seq<(int, Option<string>)>)
      requires Inv(config, View()) && InPhase(View(), w, Executing)
      modifies this, repo
      ensures Inv(config, View()) && InPhase(View(), w, Executing)
      ensures workers[w].id == old(workers[w].id) && tokens == old(tokens)
    {
      var i := 0;
      while i < |reports|
        invariant 0 <= i <= |reports|
        invariant Inv(config, View()) && InPhase(View(), w, Executing)
        invariant workers[w].id == old(workers[w].id) && tokens == old(tokens)
      {
        InvStep(config, View(), Event.Progress(w, reports[i].0, reports[i].1, true));
        OnProgress(w, reports[i].0, reports[i].1, true);
        i := i + 1;
      }
    }

    /** The end of executeTask: the final write and the deferred release. */
    method Conclude(w: WorkerId, failed: bool, now: int)
      requires Inv(config, View()) && InPhase(View(), w, Executing)
      modifies this, repo
      ensures Inv(config, View()) && w !in workers && tokens == old(tokens) - 1
      ensures Final(config, View(), old(workers[w].id))
      ensures repo.rows[old(workers[w].id)].status == if failed then Failed else Completed
    {
      ghost var start := View();
      InvStep(config, start, Event.Finish(w, failed, now, true));
      LastWriteFinal(config, start, Event.Finish(w, failed, now, true));
      Finish(w, failed, now, true);
      ReleaseQuietly(w);
    }

    method ReleaseQuietly(w: WorkerId)
      requires Inv(config, View()) && InPhase(View(), w, Releasing)
      requires Final(config, View(), workers[w].id)
      modifies this, repo
      ensures Inv(config, View()) && w !in workers && tokens == old(tokens) - 1
      ensures Final(config, View(), old(workers[w].id)) && repo.rows == old(repo.rows)
    {
      assert w in Holders(View());
      InvStep(config, View(), Event.Release(w));
      if workers[w].id !in history.early {
        QuietStep(config, View(), Event.Release(w), workers[w].id);
      }
      Release(w);
    }

    /** Taking the slot and writing "running". */
    method Prepare(w: WorkerId)
      requires Inv(config, View()) && InPhase(View(), w, Queued) && tokens < config.maxConcurrent
      modifies this, repo
      ensures Inv(config, View()) && tokens == old(tokens) + 1
      ensures w in workers && workers[w].id == old(workers[w].id)
      ensures if old(workers[w].task.kind) in config.executors then workers[w].phase == Executing
              else workers[w].phase == Releasing && Final(config, View(), workers[w].id)
    {
      InvStep(config, View(), Event.AcquireSlot(w));
      AcquireSlot(w);
      ghost var holding := View();
      InvStep(config, holding, Event.Begin(w, true));
      if workers[w].task.kind !in config.executors {
        LastWriteFinal(config, holding, Event.Begin(w, true));
      }
      Begin(w, true);
    }

    /** One goroutine of executeTask without interference: whatever the executor
        reports and however it ends, with successful writes the row ends up
        terminal for good and the slot is free again. */
    method ExecuteTask(w: WorkerId, reports: seq<(int, Option<string>)>, failed: bool, now: int)
      requires Inv(config, View()) && InPhase(View(), w, Queued) && tokens < config.maxConcurrent
      modifies this, repo
      ensures Inv(config, View()) && w !in workers && tokens == old(tokens)
      ensures Final(config, View(), old(workers[w].id))
      ensures old(workers[w].task.kind) in config.executors ==>
        repo.rows[old(workers[w].id)].status == if failed then Failed else Completed
    {
      var known := workers[w].task.kind in config.executors;
      Prepare(w);
      if known {
        Execute(w, reports);
        Conclude(w, failed, now);
      } else {
        ReleaseQuietly(w);
      }
    }

    method PollStart(w: WorkerId, ok: bool)
      requires Enabled(config, View(), Event.PollStart(w, ok))
      modifies this, repo
      ensures View() == Next(config, old(View()), Event.PollStart(w, ok))
      ensures var k := old(workers[w]); var known := k.task.kind in config.pollers;
        var t := k.task.(status := Failed, error := Some("unknown_poller"));
        && repo.rows == (if ok && !known then old(repo.rows)[k.id := t] else old(repo.rows))
        && workers == if known then old(workers)[w := k.(phase := Polling(0, 0))] else old(workers) - {w}
    {
      if workers[w].task.kind !in config.pollers {
        var _ := FailTask(w, "unknown_poller", ok);
        Leave(w);
        return;
      }
      workers := workers[w := workers[w].(phase := Polling(0, 0))];
    }

    method PollTimeout(w: WorkerId, ok: bool)
      requires Enabled(config, View(), Event.PollTimeout(w, ok))
      modifies this, repo
      ensures View() == Next(config, old(View()), Event.PollTimeout(w, ok))
      ensures var k := old(workers[w]); var t := k.task.(status := Failed, error := Some("timeout"));
        && repo.rows == (if ok then old(repo.rows)[k.id := t] else old(repo.rows))
        && workers == old(workers) - {w}
    {
      var _ := FailTask(w, "timeout", ok);
      Leave(w);
    }

    method PollTick(w: WorkerId, result: PollResult, ok: bool)
      requires Enabled(config, View(), Event.PollTick(w, result, ok))
      modifies this, repo
      ensures View() == Next(config, old(View()), Event.PollTick(w, result, ok))
      ensures var k := old(workers[w]); var n := k.phase.attempts + 1;
        && (n > config.maxPollAttempts ==>
              var t := k.task.(status := Failed, error := Some("max_attempts"));
              && repo.rows == (if ok then old(repo.rows)[k.id := t] else old(repo.rows))
              && workers == old(workers) - {w})
        && (n <= config.maxPollAttempts ==>
              && repo.rows == old(repo.rows)
              && workers == old(workers)[w := k.(phase :=
                   if result.PollError? then Polling(n, k.phase.calls + 1)
                   else Reported(n, k.phase.calls + 1, result.progress, result.completed, result.output))])
    {
      var worker := workers[w];
      var attempts := worker.phase.attempts + 1;
      if attempts > config.maxPollAttempts {
        var _ := FailTask(w, "max_attempts", ok);
        Leave(w);
        return;
      }
      var calls := worker.phase.calls + 1;
      match result
      case PollError =>
        workers := workers[w := worker.(phase := Polling(attempts, calls))];
      case PollOk(progress, completed, output) =>
        workers := workers[w := worker.(phase := Reported(attempts, calls, progress, completed, output))];
    }

    method ApplyReport(w: WorkerId, ok: bool)
      requires Enabled(config, View(), Event.ApplyReport(w, ok))
      modifies this, repo
      ensures View() == Next(config, old(View()), Event.ApplyReport(w, ok))
      ensures var k := old(workers[w]); var p := k.phase; var id := k.id;
        && (ok && p.progress != k.task.progress && id in old(repo.rows) ==>
              repo.rows == old(repo.rows)[id := old(repo.rows)[id].(status := k.task.status, progress := p.progress)])
        && (!ok || p.progress == k.task.progress ==> repo.rows == old(repo.rows))
        && workers == old(workers)[w :=
             Worker(id, k.task.(progress := p.progress),
                    if p.completed then Finishing(p.attempts, p.calls, p.output) else Polling(p.attempts, p.calls))]
    {
      var worker := workers[w];
      var p := worker.phase;
      var task := worker.task;
      if p.progress != task.progress {
        task := task.(progress := p.progress);
        repo.UpdateStatus(worker.id, task.status, p.progress, ok);
      }
      if p.completed {
        workers := workers[w := worker.(task := task, phase := Finishing(p.attempts, p.calls, p.output))];
      } else {
        workers := workers[w := worker.(task := task, phase := Polling(p.attempts, p.calls))];
      }
    }

    method SaveCompleted(w: WorkerId, now: int, ok: bool)
      requires Enabled(config, View(), Event.SaveCompleted(w, now, ok))
      modifies this, repo
      ensures View() == Next(config, old(View()), Event.SaveCompleted(w, now, ok))
      ensures var k := old(workers[w]);
        var t := k.task.(status := Completed, progress := 100, output := k.phase.output, completedAt := Some(now));
        && repo.rows == (if ok then old(repo.rows)[k.id := t] else old(repo.rows))
        && workers == old(workers) - {w}
    {
      var worker := workers[w];
      var task := worker.task.(status := Completed, progress := 100, output := worker.phase.output,
                               completedAt := Some(now));
      repo.Update(worker.id, task, ok);
      Leave(w);
    }

    /** The whole of pollExternalTask without interference: the loop ends after at
        most MaxPollAttempts calls of PollStatus, whatever the poller answers, and
        unless it was stopped or a write failed it leaves a final row. */
    method PollExternalTask(w: WorkerId, startOk: bool, signals: nat -> Signal) returns (calls: nat)
      requires Inv(config, View()) && InPhase(View(), w, Starting)
      requires forall i: nat :: signals(i).StopSignal? ==> stopped
      modifies this, repo
      ensures Inv(config, View()) && w !in workers
      ensures calls == 0 || calls <= config.maxPollAttempts
      ensures !old(stopped) && startOk && (forall i: nat :: signals(i).ok) ==>
        Final(config, View(), old(workers[w].id))
    {
      calls := 0;
      PollStartCleanly(w, startOk);
      var i: nat := 0;
      while w in workers
        invariant Inv(config, View()) && stopped == old(stopped)
        invariant w in workers ==>
          workers[w].phase == Polling(calls, calls) && workers[w].id == old(workers[w].id)
        invariant calls == 0 || calls <= config.maxPollAttempts
        invariant w !in workers && !stopped && startOk && (forall j: nat :: signals(j).ok) ==>
          Final(config, View(), old(workers[w].id))
        decreases w in workers, config.maxPollAttempts - calls
      {
        calls := React(w, calls, signals(i));
        i := i + 1;
      }
    }

    method PollStartCleanly(w: WorkerId, ok: bool)
      requires Inv(config, View()) && InPhase(View(), w, Starting)
      modifies this, repo
      ensures Inv(config, View()) && stopped == old(stopped)
      ensures w in workers ==>
        workers[w].phase == Polling(0, 0) && workers[w].id == old(workers[w].id)
      ensures w !in workers && ok ==> Final(config, View(), old(workers[w].id))
    {
      InvStep(config, View(), Event.PollStart(w, ok));
      if workers[w].task.kind !in config.pollers && ok {
        LastWriteFinal(config, View(), Event.PollStart(w, ok));
      }
      PollStart(w, ok);
    }

    /** The select: one of stop, timeout and tick. */
    method React(w: WorkerId, attempts: nat, signal: Signal) returns (calls: nat)
      requires Inv(config, View()) && InPhase(View(), w, Polling(attempts, attempts))
      requires signal.StopSignal? ==> stopped
      modifies this, repo
      ensures Inv(config, View()) && stopped == old(stopped)
      ensures attempts <= calls && (calls > attempts ==> calls <= config.maxPollAttempts)
      ensures w in workers ==>
        calls > attempts && workers[w].phase == Polling(calls, calls)
        && workers[w].id == old(workers[w].id)
      ensures w !in workers && !signal.StopSignal? && signal.ok ==>
        Final(config, View(), old(workers[w].id))
    {
      calls := attempts;
      match signal {
        case StopSignal =>
          InvStep(config, View(), Event.PollStop(w));
          Leave(w);
        case TimeoutSignal(ok) =>
          InvStep(config, View(), Event.PollTimeout(w, ok));
          if ok { LastWriteFinal(config, View(), Event.PollTimeout(w, ok)); }
          PollTimeout(w, ok);
        case TickSignal(result, now, ok) =>
          calls := PollOnce(w, attempts, result, now, ok);
      }
    }

    /** One tick of the loop, up to the next select or to the return. */
    method PollOnce(w: WorkerId, attempts: nat, result: PollResult, now: int, ok: bool)
      returns (calls: nat)
      requires Inv(config, View()) && InPhase(View(), w, Polling(attempts, attempts))
      modifies this, repo
      ensures Inv(config, View()) && stopped == old(stopped)
      ensures calls == if attempts + 1 <= config.maxPollAttempts then attempts + 1 else attempts
      ensures w in workers ==>
        calls == attempts + 1 && workers[w].phase == Polling(calls, calls)
        && workers[w].id == old(workers[w].id)
      ensures w !in workers && ok ==> Final(config, View(), old(workers[w].id))
    {
      CountTick(w, attempts, result, ok);
      calls := attempts;
      if w in workers {
        calls := attempts + 1;
        if workers[w].phase.Reported? {
          Absorb(w, now, ok);
        }
      }
    }

    /** The count of attempts, and PollStatus if there is one left. */
    method CountTick(w: WorkerId, attempts: nat, result: PollResult, ok: bool)
      requires Inv(config, View()) && InPhase(View(), w, Polling(attempts, attempts))
      modifies this, repo
      ensures Inv(config, View()) && stopped == old(stopped)
      ensures w in workers <==> attempts + 1 <= config.maxPollAttempts
      ensures w in workers ==>
        workers[w].id == old(workers[w].id)
        && (workers[w].phase == Polling(attempts + 1, attempts + 1)
            || (workers[w].phase.Reported? && workers[w].phase.attempts == workers[w].phase.calls == attempts + 1))
      ensures w !in workers && ok ==> Final(config, View(), old(workers[w].id))
    {
      InvStep(config, View(), Event.PollTick(w, result, ok));
      if attempts + 1 > config.maxPollAttempts && ok {
        LastWriteFinal(config, View(), Event.PollTick(w, result, ok));
      }
      PollTick(w, result, ok);
    }

    /** What follows a successful PollStatus. */
    method Absorb(w: WorkerId, now: int, ok: bool)
      requires Inv(config, View()) && w in workers && workers[w].phase.Reported?
      modifies this, repo
      ensures Inv(config, View()) && stopped == old(stopped)
      ensures old(workers[w].phase.completed) <==> w !in workers
      ensures w in workers ==>
        workers[w].id == old(workers[w].id)
        && workers[w].phase == Polling(old(workers[w].phase.attempts), old(workers[w].phase.calls))
      ensures w !in workers && ok ==> Final(config, View(), old(workers[w].id))
    {
      InvStep(config, View(), Event.ApplyReport(w, ok));
      ApplyReport(w, ok);
      if workers[w].phase.Finishing? {
        CompleteTask(w, now, ok);
      }
    }

    method CompleteTask(w: WorkerId, now: int, ok: bool)
      requires Inv(config, View()) && w in workers && workers[w].phase.Finishing?
      modifies this, repo
      ensures Inv(config, View()) && stopped == old(stopped) && w !in workers
      ensures ok ==> Final(config, View(), old(workers[w].id))
    {
      InvStep(config, View(), Event.SaveCompleted(w, now, ok));
      if ok { LastWriteFinal(config, View(), Event.SaveCompleted(w, now, ok)); }
      SaveCompleted(w, now, ok);
    }

    method ListPending(order: seq<TaskId>)
      requires Enabled(config, View(), Event.ListPending(order))
      modifies this
      ensures View() == Next(config, old(View()), Event.ListPending(order))
      ensures boot == Requeue(order)
      ensures forall id ::
        (id in history.listed <==> id in repo.rows && repo.rows[id].status in {Pending, Running})
        && (id in history.listed ==> history.listed[id] == repo.rows[id])
    {
      history := NO_HISTORY.(listed := NonTerminal(repo.rows), early := history.early);
      boot := Requeue(order);
    }

    /** One round of the loop in recoverPendingTasks. */
    method RequeueNext(ok: bool)
      requires Enabled(config, View(), Event.RequeueNext(ok))
      modifies this, repo
      ensures View() == Next(config, old(View()), Event.RequeueNext(ok))
      ensures var id := old(boot.todo[0]); var row := old(history.listed[id]); var t := row.(status := Pending);
        var resets := row.external == "" && row.status == Running;
        && repo.rows == (if resets && ok then old(repo.rows)[id := t] else old(repo.rows))
        && workers == if row.external != "" || (resets && !ok) then old(workers)
                      else old(workers)[old(nextWorker) := Worker(id, if resets then t else row, Queued)]
    {
      var id := boot.todo[0];
      var task := history.listed[id];
      boot := Requeue(boot.todo[1..]);
      if task.external != "" {
        return;
      }
      if task.status == Running {
        task := task.(status := Pending);
        repo.Update(id, task, ok);
        if !ok {
          history := history.(resetFailed := history.resetFailed + {id});
          return;
        }
      }
      Launch(id, task, Queued);
      history := history.(launched := history.launched + multiset{id});
    }

    method ListExternal(order: seq<TaskId>)
      requires Enabled(config, View(), Event.ListExternal(order))
      modifies this
      ensures View() == Next(config, old(View()), Event.ListExternal(order))
      ensures boot.Resume? && boot.todo == order
      ensures forall id ::
        (id in boot.rows <==> id in repo.rows && repo.rows[id].status == Running && repo.rows[id].external != "")
        && (id in boot.rows ==> boot.rows[id] == repo.rows[id])
    {
      var rows := RunningExternal(repo.rows);
      history := history.(gone := set id | id in history.listed
                                && history.listed[id].external != "" && id !in rows);
      boot := Resume(order, rows);
    }

    /** One round of the loop in recoverExternalTasks. */
    method ResumeNext()
      requires Enabled(config, View(), Event.ResumeNext)
      modifies this
      ensures View() == Next(config, old(View()), Event.ResumeNext)
      ensures repo.rows == old(repo.rows)
      ensures workers == old(workers)[old(nextWorker) :=
        Worker(old(boot.todo[0]), old(boot.rows[boot.todo[0]]), Starting)]
    {
      var id := boot.todo[0];
      var task := boot.rows[id];
      boot := boot.(todo := boot.todo[1..]);
      Launch(id, task, Starting);
      history := history.(launched := history.launched + multiset{id});
    }

    method StopManager()
      requires Enabled(config, View(), Event.Stop)
      modifies this
      ensures View() == Next(config, old(View()), Event.Stop)
    {
      stopped := true;
    }

    /** The IDs a query returns, in some order. */
    method Query(ids: set<TaskId>) returns (order: seq<TaskId>)
      ensures Enumerates(order, ids)
    {
      order := [];
      var rest := ids;
      while rest != {}
        invariant NoDuplicates(order) && rest <= ids
        invariant forall x :: x in order <==> x in ids - rest
        decreases rest
      {
        var x :| x in rest;
        assert x !in order;
        order, rest := order + [x], rest - {x};
      }
    }

    /** The loop of recoverPendingTasks on a manager whose Start begins. */
    method RecoverPendingTasks(resetOk: TaskId -> bool)
      requires Inv(config, View()) && boot == Fresh
      modifies this, repo
      ensures Inv(config, View()) && boot == Requeue([]) && Extends(old(workers), workers, nextWorker)
      ensures Requeued(old(repo.rows), resetOk, {}, repo.rows, workers - old(workers).Keys)
    {
      ghost var base := workers;
      var order := Query(NonTerminal(repo.rows).Keys);
      StartsWithin(config, View());
      InvStep(config, View(), Event.ListPending(order));
      ListPending(order);
      while boot.todo != []
        invariant Inv(config, View()) && boot.Requeue?
        invariant history.listed == NonTerminal(old(repo.rows)) && Extends(base, workers, nextWorker)
        invariant Requeued(old(repo.rows), resetOk, Members(boot.todo), repo.rows, workers - base.Keys)
        decreases if boot.Requeue? then |boot.todo| else 0
      {
        RequeueRound(base, old(repo.rows), resetOk);
      }
    }

    method RequeueRound(ghost base: map<WorkerId, Worker>, ghost before: map<TaskId, Task>, resetOk: TaskId -> bool)
      requires Inv(config, View()) && boot.Requeue? && boot.todo != []
      requires history.listed == NonTerminal(before) && Extends(base, workers, nextWorker)
      requires Requeued(before, resetOk, Members(boot.todo), repo.rows, workers - base.Keys)
      modifies this, repo
      ensures Inv(config, View()) && boot.Requeue? && |boot.todo| == old(|boot.todo|) - 1
      ensures history.listed == old(history.listed) && Extends(base, workers, nextWorker)
      ensures Requeued(before, resetOk, Members(boot.todo), repo.rows, workers - base.Keys)
    {
      var id := boot.todo[0];
      RequeueRoundFacts(config, View(), before);
      RequeueRoundKeeps(config, View(), base, before, resetOk);
      RequeueNext(resetOk(id));
    }

    /** The loop of recoverExternalTasks. */
    method RecoverExternalTasks(ghost base: map<WorkerId, Worker>, ghost before: map<TaskId, Task>,
                                ghost resetOk: TaskId -> bool)
      requires Inv(config, View()) && boot == Requeue([]) && Extends(base, workers, nextWorker)
      requires forall id :: id in before ==> RowOk(before[id])
      requires Requeued(before, resetOk, {}, repo.rows, workers - base.Keys)
      modifies this, repo
      ensures Inv(config, View()) && boot.Resume? && boot.todo == [] && Extends(base, workers, nextWorker)
      ensures Resumed(before, resetOk, {}, workers - base.Keys)
    {
      var order := Query(RunningExternal(repo.rows).Keys);
      InvStep(config, View(), Event.ListExternal(order));
      ResumedFirst(before, resetOk, repo.rows, workers - base.Keys);
      assert Members(order) == RunningExternal(repo.rows).Keys;
      ListExternal(order);
      while boot.todo != []
        invariant Inv(config, View()) && boot.Resume? && Extends(base, workers, nextWorker)
        invariant Resumed(before, resetOk, Members(boot.todo), workers - base.Keys)
        decreases if boot.Resume? then |boot.todo| else 0
      {
        ResumeRound(base, before, resetOk);
      }
    }

    method ResumeRound(ghost base: map<WorkerId, Worker>, ghost before: map<TaskId, Task>,
                       ghost resetOk: TaskId -> bool)
      requires Inv(config, View()) && boot.Resume? && boot.todo != [] && Extends(base, workers, nextWorker)
      requires Resumed(before, resetOk, Members(boot.todo), workers - base.Keys)
      modifies this
      ensures Inv(config, View()) && boot.Resume? && |boot.todo| == old(|boot.todo|) - 1
      ensures Extends(base, workers, nextWorker)
      ensures Resumed(before, resetOk, Members(boot.todo), workers - base.Keys)
    {
      ResumeRoundKeeps(config, View(), base, before, resetOk);
      ResumeNext();
    }

    /** Start, run without interference: it starts one worker of the right kind for
        every non-terminal task (unless the reset of its row fails), and none for any
        other task; workers of tasks submitted before live on. */
    method Start(resetOk: TaskId -> bool)
      requires Inv(config, View()) && boot == Fresh
      modifies this, repo
      ensures Inv(config, View()) && boot == Serving && Extends(old(workers), workers, nextWorker)
      ensures var started := workers - old(workers).Keys;
        && (forall id :: id in old(repo.rows) ==>
              (HasWorker(started, id, Queued) <==> Requeues(old(repo.rows)[id], resetOk(id))))
        && (forall id :: id in old(repo.rows) ==>
              (HasWorker(started, id, Starting) <==> Polls(old(repo.rows)[id])))
        && (forall w :: w in started ==>
              started[w].id in old(repo.rows) && (started[w].phase == Queued || started[w].phase == Starting))
        && OnePerTask(started)
    {
      ghost var base := workers;
      RecoverPendingTasks(resetOk);
      RecoverExternalTasks(base, old(repo.rows), resetOk);
      Serve(base, old(repo.rows), resetOk);
    }

    method Serve(ghost base: map<WorkerId, Worker>, ghost before: map<TaskId, Task>, ghost resetOk: TaskId -> bool)
      requires Inv(config, View()) && boot.Resume? && boot.todo == []
      requires Resumed(before, resetOk, {}, workers - base.Keys)
      modifies this
      ensures Inv(config, View()) && boot == Serving && workers == old(workers) && nextWorker == old(nextWorker)
      ensures var started := workers - base.Keys;
        && (forall id :: id in before ==> (HasWorker(started, id, Queued) <==> Requeues(before[id], resetOk(id))))
        && (forall id :: id in before ==> (HasWorker(started, id, Starting) <==> Polls(before[id])))
        && (forall w :: w in started ==>
              started[w].id in before && (started[w].phase == Queued || started[w].phase == Starting))
        && OnePerTask(started)
    {
      InvStep(config, View(), Event.StartDone);
      ResumedLast(before, resetOk, workers - base.Keys);
      boot := Serving;
    }
  }

  /** The workers of `base` are still there; later ones have later numbers. */
  ghost predicate Extends(base: map<WorkerId, Worker>, workers: map<WorkerId, Worker>, nextWorker: WorkerId) {
    forall w :: w in base ==> w < nextWorker && w in workers && workers[w] == base[w]
  }

  ghost predicate OnePerTask(workers: map<WorkerId, Worker>) {
    forall v, w :: v in workers && w in workers && v != w ==> workers[v].id != workers[w].id
  }

  lemma StartsWithin(c: Config, s: State)
    requires WorkersInv(c, s)
    ensures Extends(s.workers, s.workers, s.nextWorker) && s.workers - s.workers.Keys == map[]
  {
    forall w | w in s.workers ensures w < s.nextWorker { assert WorkerOk(c, s, w); }
  }

  function Members(todo: seq<TaskId>): set<TaskId> {
    set x | x in todo
  }

  ghost predicate HasWorker(workers: map<WorkerId, Worker>, id: TaskId, phase: Phase) {
    exists w :: w in workers && workers[w].id == id && workers[w].phase == phase
  }

  /** recoverPendingTasks launches an executor for such a row. */
  predicate Requeues(t: Task, resetOk: bool) {
    !t.IsTerminal() && t.external == "" && (t.status == Running ==> resetOk)
  }

  /** recoverExternalTasks launches a poller for such a row. */
  predicate Polls(t: Task) {
    !t.IsTerminal() && t.external != ""
  }

  lemma HasWorkerAfter(workers: map<WorkerId, Worker>, w: WorkerId, worker: Worker)
    requires w !in workers
    ensures HasWorker(workers[w := worker], worker.id, worker.phase)
    ensures forall x, p :: HasWorker(workers, x, p) ==> HasWorker(workers[w := worker], x, p)
  {
    var workers' := workers[w := worker];
    assert workers'[w] == worker;
    forall x, p | HasWorker(workers, x, p) ensures HasWorker(workers', x, p) {
      var v :| v in workers && workers[v].id == x && workers[v].phase == p;
      assert workers'[v] == workers[v];
    }
  }

  /** The state of the first recovery loop when only `todo` is left. */
  ghost predicate Requeued(before: map<TaskId, Task>, resetOk: TaskId -> bool, todo: set<TaskId>,
                           rows: map<TaskId, Task>, workers: map<WorkerId, Worker>) {
    && rows.Keys == before.Keys
    && (forall id :: id in rows ==>
          (rows[id] == before[id] || (before[id].external == "" && rows[id].external == "")))
    && (forall w :: w in workers ==>
          && workers[w].phase == Queued
          && workers[w].id in before
          && workers[w].id !in todo
          && Requeues(before[workers[w].id], resetOk(workers[w].id)))
    && OnePerTask(workers)
    && (forall id :: id in before && id !in todo && Requeues(before[id], resetOk(id)) ==>
          HasWorker(workers, id, Queued))
  }

  lemma RequeuedLaunch(before: map<TaskId, Task>, resetOk: TaskId -> bool, todo: set<TaskId>,
                       rows: map<TaskId, Task>, workers: map<WorkerId, Worker>,
                       w: WorkerId, id: TaskId, row: Task)
    requires id in before && id in todo && Requeues(before[id], resetOk(id)) && w !in workers
    requires Requeued(before, resetOk, todo, rows, workers)
    ensures Requeued(before, resetOk, todo - {id}, rows, workers[w := Worker(id, row, Queued)])
  {
    HasWorkerAfter(workers, w, Worker(id, row, Queued));
  }

  lemma RequeuedSkip(before: map<TaskId, Task>, resetOk: TaskId -> bool, todo: set<TaskId>,
                     rows: map<TaskId, Task>, workers: map<WorkerId, Worker>, id: TaskId)
    requires id in before && !Requeues(before[id], resetOk(id))
    requires Requeued(before, resetOk, todo, rows, workers)
    ensures Requeued(before, resetOk, todo - {id}, rows, workers)
  {
  }

  lemma RequeuedReset(before: map<TaskId, Task>, resetOk: TaskId -> bool, todo: set<TaskId>,
                      rows: map<TaskId, Task>, workers: map<WorkerId, Worker>, id: TaskId, row: Task)
    requires id in before && before[id].external == "" && row.external == ""
    requires Requeued(before, resetOk, todo, rows, workers)
    ensures Requeued(before, resetOk, todo, rows[id := row], workers)
  {
  }

  lemma RequeuedOne(before: map<TaskId, Task>, resetOk: TaskId -> bool, todo: set<TaskId>,
                    s: State, id: TaskId)
    requires id in before && id in todo && !before[id].IsTerminal() && s.nextWorker !in s.workers
    requires Requeued(before, resetOk, todo, s.store, s.workers)
    ensures var s' := RequeueOne(s, id, before[id], resetOk(id));
      Requeued(before, resetOk, todo - {id}, s'.store, s'.workers)
  {
    var row := before[id];
    if !Requeues(row, resetOk(id)) {
      RequeuedSkip(before, resetOk, todo, s.store, s.workers, id);
    } else if row.status == Running {
      var reset := row.(status := Pending);
      RequeuedReset(before, resetOk, todo, s.store, s.workers, id, reset);
      RequeuedLaunch(before, resetOk, todo, s.store[id := reset], s.workers, s.nextWorker, id, reset);
    } else {
      RequeuedLaunch(before, resetOk, todo, s.store, s.workers, s.nextWorker, id, row);
    }
  }

  lemma RequeueRoundFacts(c: Config, s: State, before: map<TaskId, Task>)
    requires Inv(c, s) && s.boot.Requeue? && s.boot.todo != []
    requires s.history.listed == NonTerminal(before)
    ensures s.boot.todo[0] in s.history.listed && s.nextWorker !in s.workers
    ensures Members(s.boot.todo) - {s.boot.todo[0]} == Members(s.boot.todo[1..])
    ensures forall ok :: Enabled(c, s, Event.RequeueNext(ok)) && Inv(c, RequeueNextStep(s, ok))
  {
    TailOf(s.boot.todo);
    NextWorkerIsNew(c, s);
    assert StillThere(s, s.boot.todo[0], s.history.listed[s.boot.todo[0]]);
    forall ok ensures Enabled(c, s, Event.RequeueNext(ok)) && Inv(c, RequeueNextStep(s, ok)) {
      RequeueNextInv(c, s, ok);
    }
  }

  lemma LaunchSince(workers: map<WorkerId, Worker>, base: set<WorkerId>, w: WorkerId, worker: Worker)
    requires w !in base
    ensures workers[w := worker] - base == (workers - base)[w := worker]
  {
  }

  lemma RequeueOneSince(s: State, base: set<WorkerId>, id: TaskId, row: Task, ok: bool)
    requires s.nextWorker !in base
    ensures var s' := RequeueOne(s, id, row, ok); var t := RequeueOne(s.(workers := s.workers - base), id, row, ok);
      s'.workers - base == t.workers && s'.store == t.store
  {
    LaunchSince(s.workers, base, s.nextWorker, Worker(id, row, Queued));
    LaunchSince(s.workers, base, s.nextWorker, Worker(id, row.(status := Pending), Queued));
  }

  lemma RequeueRoundExtends(c: Config, s: State, base: map<WorkerId, Worker>, ok: bool)
    requires s.boot.Requeue? && s.boot.todo != [] && s.boot.todo[0] in s.history.listed
    requires s.nextWorker !in s.workers && Extends(base, s.workers, s.nextWorker)
    ensures var s' := RequeueNextStep(s, ok);
      && s'.boot == Requeue(s.boot.todo[1..]) && s'.history.listed == s.history.listed
      && Extends(base, s'.workers, s'.nextWorker)
  {
  }

  lemma RequeueRoundKeeps(c: Config, s: State, base: map<WorkerId, Worker>, before: map<TaskId, Task>,
                          resetOk: TaskId -> bool)
    requires s.boot.Requeue? && s.boot.todo != [] && s.boot.todo[0] in s.history.listed
    requires s.history.listed == NonTerminal(before) && s.nextWorker !in s.workers
    requires Members(s.boot.todo) - {s.boot.todo[0]} == Members(s.boot.todo[1..])
    requires Extends(base, s.workers, s.nextWorker)
    requires Requeued(before, resetOk, Members(s.boot.todo), s.store, s.workers - base.Keys)
    ensures var s' := RequeueNextStep(s, resetOk(s.boot.todo[0]));
      && s'.boot == Requeue(s.boot.todo[1..]) && s'.history.listed == s.history.listed
      && Extends(base, s'.workers, s'.nextWorker)
      && Requeued(before, resetOk, Members(s.boot.todo[1..]), s'.store, s'.workers - base.Keys)
  {
    var rest := s.(boot := Requeue(s.boot.todo[1..]));
    var id := s.boot.todo[0];
    RequeueRoundExtends(c, s, base, resetOk(id));
    RequeueOneSince(rest, base.Keys, id, s.history.listed[id], resetOk(id));
    RequeuedOne(before, resetOk, Members(s.boot.todo), rest.(workers := s.workers - base.Keys), id);
  }

  /** The state of the second recovery loop when only `todo` is left. */
  ghost predicate Resumed(before: map<TaskId, Task>, resetOk: TaskId -> bool,
                          todo: set<TaskId>, workers: map<WorkerId, Worker>) {
    && (forall id :: id in todo ==> id in before && Polls(before[id]))
    && (forall w :: w in workers ==>
          && workers[w].id in before && workers[w].id !in todo
          && (workers[w].phase == Queued || workers[w].phase == Starting)
          && (workers[w].phase == Queued ==> Requeues(before[workers[w].id], resetOk(workers[w].id)))
          && (workers[w].phase == Starting ==> Polls(before[workers[w].id])))
    && OnePerTask(workers)
    && (forall id :: id in before && Requeues(before[id], resetOk(id)) ==> HasWorker(workers, id, Queued))
    && (forall id :: id in before && Polls(before[id]) && id !in todo ==> HasWorker(workers, id, Starting))
  }

  lemma ResumedFirst(before: map<TaskId, Task>, resetOk: TaskId -> bool,
                     rows: map<TaskId, Task>, workers: map<WorkerId, Worker>)
    requires forall id :: id in before ==> RowOk(before[id])
    requires Requeued(before, resetOk, {}, rows, workers)
    ensures Resumed(before, resetOk, RunningExternal(rows).Keys, workers)
  {
  }

  lemma ResumedOne(before: map<TaskId, Task>, resetOk: TaskId -> bool, todo: set<TaskId>,
                   workers: map<WorkerId, Worker>, w: WorkerId, id: TaskId, row: Task)
    requires id in todo && w !in workers
    requires Resumed(before, resetOk, todo, workers)
    ensures Resumed(before, resetOk, todo - {id}, workers[w := Worker(id, row, Starting)])
  {
    HasWorkerAfter(workers, w, Worker(id, row, Starting));
  }

  lemma ResumeRoundKeeps(c: Config, s: State, base: map<WorkerId, Worker>, before: map<TaskId, Task>,
                         resetOk: TaskId -> bool)
    requires Inv(c, s) && s.boot.Resume? && s.boot.todo != [] && Extends(base, s.workers, s.nextWorker)
    requires Resumed(before, resetOk, Members(s.boot.todo), s.workers - base.Keys)
    ensures Enabled(c, s, Event.ResumeNext) && Inv(c, Next(c, s, Event.ResumeNext))
    ensures var s' := Next(c, s, Event.ResumeNext);
      && s'.boot == s.boot.(todo := s.boot.todo[1..]) && Extends(base, s'.workers, s'.nextWorker)
      && Resumed(before, resetOk, Members(s.boot.todo[1..]), s'.workers - base.Keys)
  {
    assert s.boot.todo[0] in Todo(s);
    InvStep(c, s, Event.ResumeNext);
    NextWorkerIsNew(c, s);
    TailOf(s.boot.todo);
    ResumedNext(s, base, before, resetOk);
  }

  lemma ResumedNext(s: State, base: map<WorkerId, Worker>, before: map<TaskId, Task>, resetOk: TaskId -> bool)
    requires s.boot.Resume? && s.boot.todo != [] && s.boot.todo[0] in s.boot.rows
    requires s.nextWorker !in s.workers && s.boot.todo[0] !in s.boot.todo[1..]
    requires Extends(base, s.workers, s.nextWorker)
    requires Resumed(before, resetOk, Members(s.boot.todo), s.workers - base.Keys)
    ensures var s' := ResumeNextStep(s);
      && Extends(base, s'.workers, s'.nextWorker)
      && Resumed(before, resetOk, Members(s.boot.todo[1..]), s'.workers - base.Keys)
  {
    var id := s.boot.todo[0];
    assert id in Members(s.boot.todo);
    assert s.boot.todo == [id] + s.boot.todo[1..];
    assert Members(s.boot.todo) - {id} == Members(s.boot.todo[1..]);
    LaunchSince(s.workers, base.Keys, s.nextWorker, Worker(id, s.boot.rows[id], Starting));
    ResumedOne(before, resetOk, Members(s.boot.todo), s.workers - base.Keys, s.nextWorker, id, s.boot.rows[id]);
  }

  lemma ResumedLast(before: map<TaskId, Task>, resetOk: TaskId -> bool, workers: map<WorkerId, Worker>)
    requires Resumed(before, resetOk, {}, workers)
    ensures forall id :: id in before ==>
      (HasWorker(workers, id, Queued) <==> Requeues(before[id], resetOk(id)))
    ensures forall id :: id in before ==> (HasWorker(workers, id, Starting) <==> Polls(before[id]))
  {
  }
}
