/** What a restart launches, and when a cancellation is the last word. */
module TaskRestart {
  import opened Options
  import opened TaskModel
  import opened TaskSafety
  import opened TaskRuns

  // ---------- restart ----------

  lemma ListedKept(c: Config, s: State, e: Event)
    requires Inv(c, s) && Enabled(c, s, e) && s.boot != Fresh && e != NewManager && e != Crash
    ensures Next(c, s, e).history.listed == s.history.listed && Next(c, s, e).boot != Fresh
  {
    if OfWorker(e) {
      assert WorkerOk(c, s, e.w);
      IsWorkerStep(c, s, e);
    } else {
      ListedKeptElsewhere(c, s, e);
    }
  }

  lemma ListedKeptElsewhere(c: Config, s: State, e: Event)
    requires Enabled(c, s, e) && !OfWorker(e)
    requires s.boot != Fresh && e != NewManager && e != Crash
    ensures Next(c, s, e).history.listed == s.history.listed && Next(c, s, e).boot != Fresh
  {
    match e
    case Submit(_, _, _) =>
    case SubmitExternal(_, _, _, _) =>
    case CancelRead(_) =>
    case CancelWrite(_, _) =>
    case RequeueNext(_) =>
    case ListExternal(_) =>
    case ResumeNext =>
    case _ =>
  }

  lemma {:induction false} ListedKeptRun(c: Config, s: State, es: seq<Event>)
    requires Inv(c, s) && Legal(c, s, es) && s.boot != Fresh
    requires forall i :: 0 <= i < |es| ==> es[i] != NewManager && es[i] != Crash
    ensures Run(c, s, es).history.listed == s.history.listed
    decreases |es|
  {
    if es != [] {
      ListedKept(c, s, es[0]);
      InvStep(c, s, es[0]);
      ListedKeptRun(c, Next(c, s, es[0]), es[1..]);
    }
  }

  /** A fresh manager over any reachable table: when its Start, interleaved with
      the workers it launches and with cancels, has come to its end (and whatever
      follows), each task that was not terminal in the table has been launched
      exactly once, unless the reset of its row failed or a cancel finished it
      before the poller could be resumed; no other task has been launched, but for
      external ones submitted too early. */
  lemma RestartLaunchesOnce(c: Config, s: State, order: seq<TaskId>, es: seq<Event>)
    requires Inv(c, s) && Legal(c, s, [ListPending(order)] + es)
    requires forall i :: 0 <= i < |es| ==> es[i] != NewManager && es[i] != Crash
    requires Run(c, s, [ListPending(order)] + es).boot == Serving
    ensures var s' := Run(c, s, [ListPending(order)] + es);
      var h := s'.history;
      && (forall id :: id in NonTerminal(s.store) || id !in h.early ==>
            h.launched[id] ==
              if id in NonTerminal(s.store) && id !in h.resetFailed && id !in h.gone then 1 else 0)
      && (forall id :: id in h.resetFailed ==>
            id in s.store && s.store[id].external == "" && s.store[id].status == Running)
      && (forall id :: id in h.gone ==>
            id in s.store && s.store[id].external != "" && (Quiet(c, s', id) || id in h.early))
  {
    var all := [ListPending(order)] + es;
    assert all[0] == ListPending(order) && all[1..] == es;
    var s1 := ListPendingStep(s, order);
    InvRun(c, s, all);
    InvStep(c, s, all[0]);
    ListedKeptRun(c, s1, es);
    assert Run(c, s, all).history.listed == NonTerminal(s.store);
    ServingLaunches(c, Run(c, s, all), s.store);
  }

  lemma ServingLaunches(c: Config, s': State, store: map<TaskId, Task>)
    requires ServingInv(c, s') && s'.history.listed == NonTerminal(store)
    ensures var h := s'.history;
      && (forall id :: id in NonTerminal(store) || id !in h.early ==>
            h.launched[id] ==
              if id in NonTerminal(store) && id !in h.resetFailed && id !in h.gone then 1 else 0)
      && (forall id :: id in h.resetFailed ==>
            id in store && store[id].external == "" && store[id].status == Running)
      && (forall id :: id in h.gone ==>
            id in store && store[id].external != "" && (Quiet(c, s', id) || id in h.early))
  {
    var h := s'.history;
    forall id | id in NonTerminal(store) || id !in h.early
      ensures h.launched[id] ==
        if id in NonTerminal(store) && id !in h.resetFailed && id !in h.gone then 1 else 0
    {
      if id in h.listed { assert Accounted(h, id, false); }
    }
  }

  /** Nothing has gone wrong since the first listing, with tasks that were submitted
      in time. */
  ghost predicate Undisturbed(s: State) {
    && s.history.resetFailed == {}
    && s.history.gone <= s.history.early
    && (s.boot.Requeue? ==>
          forall id :: id in s.history.listed && s.history.listed[id].external != "" && id !in s.history.early ==>
            id in s.store && s.store[id] == s.history.listed[id])
  }

  lemma UndisturbedWorkerStep(c: Config, s: State, e: Event)
    requires Inv(c, s) && Enabled(c, s, e) && OfWorker(e) && Undisturbed(s)
    ensures Undisturbed(Next(c, s, e))
  {
    assert WorkerOk(c, s, e.w);
    IsWorkerStep(c, s, e);
    if s.boot.Requeue? {
      assert s.workers[e.w].IsExecutor() || s.workers[e.w].id in s.history.early;
    }
  }

  lemma UndisturbedRequeue(c: Config, s: State)
    requires Inv(c, s) && Undisturbed(s)
    requires s.boot.Requeue? && s.boot.todo != [] && s.boot.todo[0] in s.history.listed
    ensures Undisturbed(RequeueNextStep(s, true))
  {
    assert StillThere(s, s.boot.todo[0], s.history.listed[s.boot.todo[0]]);
  }

  lemma UndisturbedListing(c: Config, s: State, order: seq<TaskId>)
    requires Inv(c, s) && Undisturbed(s) && s.boot == Requeue([])
    ensures Undisturbed(ListExternalStep(s, order))
  {
    forall id | id in s.history.listed && s.history.listed[id].external != "" && id !in s.history.early
      ensures id in RunningExternal(s.store)
    {
      assert StillThere(s, id, s.history.listed[id]);
    }
  }

  lemma UndisturbedStep(c: Config, s: State, e: Event)
    requires Inv(c, s) && Enabled(c, s, e) && Undisturbed(s) && WriteOk(e) && !e.CancelWrite?
    requires s.boot != Fresh && e != NewManager && e != Crash
    ensures Undisturbed(Next(c, s, e))
  {
    if OfWorker(e) {
      UndisturbedWorkerStep(c, s, e);
    } else {
      match e
      case Submit(_, _, _) =>
      case SubmitExternal(_, _, _, _) =>
      case CancelRead(_) =>
      case RequeueNext(ok) => UndisturbedRequeue(c, s);
      case ListExternal(order) => UndisturbedListing(c, s, order);
      case ResumeNext =>
      case _ =>
    }
  }

  lemma {:induction false} UndisturbedRun(c: Config, s: State, es: seq<Event>)
    requires Inv(c, s) && Legal(c, s, es) && Undisturbed(s) && s.boot != Fresh
    requires forall i :: 0 <= i < |es| ==>
      WriteOk(es[i]) && !es[i].CancelWrite? && es[i] != NewManager && es[i] != Crash
    ensures Undisturbed(Run(c, s, es))
    decreases |es|
  {
    if es != [] {
      InvStep(c, s, es[0]);
      UndisturbedStep(c, s, es[0]);
      ListedKept(c, s, es[0]);
      UndisturbedRun(c, Next(c, s, es[0]), es[1..]);
    }
  }

  lemma ListingIsUndisturbed(s: State, order: seq<TaskId>)
    ensures Undisturbed(ListPendingStep(s, order))
  {
  }

  /** Restart loses and duplicates nothing: with successful writes and no cancel
      taking effect meanwhile, Start launches exactly the stored non-terminal tasks,
      each once, whatever it does with tasks submitted too early. (ReachableStates
      tells the kind of worker.) */
  lemma RestartIsExact(c: Config, s: State, order: seq<TaskId>, es: seq<Event>)
    requires Inv(c, s) && Legal(c, s, [ListPending(order)] + es)
    requires forall i :: 0 <= i < |es| ==>
      WriteOk(es[i]) && !es[i].CancelWrite? && es[i] != NewManager && es[i] != Crash
    requires Run(c, s, [ListPending(order)] + es).boot == Serving
    ensures var h := Run(c, s, [ListPending(order)] + es).history;
      forall id :: id !in h.early ==> h.launched[id] == if id in NonTerminal(s.store) then 1 else 0
  {
    var all := [ListPending(order)] + es;
    assert all[0] == ListPending(order) && all[1..] == es;
    InvStep(c, s, all[0]);
    ListingIsUndisturbed(s, order);
    UndisturbedRun(c, ListPendingStep(s, order), es);
    RestartLaunchesOnce(c, s, order, es);
  }

  // ---------- when is a cancellation final? ----------

  ghost predicate StaysCancelled(c: Config, s: State, id: TaskId) {
    forall es :: Legal(c, s, es) ==>
      id in Run(c, s, es).store && Run(c, s, es).store[id].status == Cancelled
  }

  ghost predicate HasWriter(c: Config, s: State, id: TaskId) {
    exists w :: w in s.workers && s.workers[w].id == id && CanWrite(c, s.workers[w])
  }

  lemma Prepend(c: Config, s: State, e: Event, es: seq<Event>)
    requires Enabled(c, s, e) && Legal(c, Next(c, s, e), es)
    ensures Legal(c, s, [e] + es) && Run(c, s, [e] + es) == Run(c, Next(c, s, e), es)
  {
    assert ([e] + es)[0] == e && ([e] + es)[1..] == es;
  }

  function Rank(p: Phase): nat {
    match p
    case Queued => 2
    case Starting => 2
    case Reported(_, _, _, _, _) => 2
    case _ => 1
  }

  /** A slot can always be freed without touching worker `w`. */
  lemma FreeSlot(c: Config, s: State, w: WorkerId) returns (es: seq<Event>)
    requires Inv(c, s) && InPhase(s, w, Queued) && s.tokens > 0
    ensures Legal(c, s, es) && Run(c, s, es).tokens == s.tokens - 1
    ensures w in Run(c, s, es).workers && Run(c, s, es).workers[w] == s.workers[w]
    ensures Run(c, s, es).store == s.store
  {
    var h :| h in Holders(s);
    if s.workers[h].phase.Releasing? {
      es := ReleaseSlot(c, s, h, w);
    } else {
      var e := GiveUp(c, s, h);
      es := ReleaseSlot(c, Next(c, s, e), h, w);
      Prepend(c, s, e, es);
      es := [e] + es;
    }
  }

  /** A holder can go on to release its slot without writing. */
  lemma GiveUp(c: Config, s: State, h: WorkerId) returns (e: Event)
    requires h in Holders(s) && !s.workers[h].phase.Releasing?
    ensures Enabled(c, s, e) && InPhase(Next(c, s, e), h, Releasing)
    ensures Next(c, s, e).tokens == s.tokens && Next(c, s, e).store == s.store
    ensures forall w :: w in s.workers && w != h ==>
      w in Next(c, s, e).workers && Next(c, s, e).workers[w] == s.workers[w]
  {
    e := if s.workers[h].phase.Holding? then Begin(h, false) else Finish(h, false, 0, false);
  }

  lemma ReleaseSlot(c: Config, s: State, h: WorkerId, w: WorkerId) returns (es: seq<Event>)
    requires InPhase(s, h, Releasing) && h != w && w in s.workers && s.tokens > 0
    ensures Legal(c, s, es) && Run(c, s, es).tokens == s.tokens - 1
    ensures w in Run(c, s, es).workers && Run(c, s, es).workers[w] == s.workers[w]
    ensures Run(c, s, es).store == s.store
  {
    es := [Release(h)];
    Prepend(c, s, Release(h), []);
  }

  /** From any reachable state, a worker that can still write can be driven to
      overwrite its row with something other than a cancellation. */
  lemma {:induction false} Overwrite(c: Config, s: State, w: WorkerId) returns (es: seq<Event>)
    requires Inv(c, s) && w in s.workers && CanWrite(c, s.workers[w])
    ensures Legal(c, s, es)
    ensures s.workers[w].id in Run(c, s, es).store
    ensures Run(c, s, es).store[s.workers[w].id].status != Cancelled
    decreases Rank(s.workers[w].phase), s.tokens
  {
    assert WorkerOk(c, s, w);
    var e := match s.workers[w].phase
      case Queued => AcquireSlot(w)
      case Holding => Begin(w, true)
      case Executing => Progress(w, 0, None, true)
      case Starting => PollStart(w, true)
      case Polling(_, _) => PollTimeout(w, true)
      case Reported(_, _, _, _, _) => ApplyReport(w, true)
      case _ => SaveCompleted(w, 0, true);
    if s.workers[w].phase.Queued? && s.tokens == c.maxConcurrent {
      var free := FreeSlot(c, s, w);
      var s1 := Run(c, s, free);
      InvRun(c, s, free);
      var rest := Overwrite(c, s1, w);
      Concat(c, s, free, rest);
      es := free + rest;
    } else {
      var s1 := Next(c, s, e);
      InvStep(c, s, e);
      if e.AcquireSlot? || e.ApplyReport? || (e.PollStart? && s.workers[w].task.kind in c.pollers) {
        OneStepNearer(c, s, e);
        var rest := Overwrite(c, s1, w);
        Prepend(c, s, e, rest);
        es := [e] + rest;
      } else {
        Overwrites(c, s, e);
        Prepend(c, s, e, []);
        es := [e];
      }
    }
  }

  lemma OneStepNearer(c: Config, s: State, e: Event)
    requires Enabled(c, s, e) && OfWorker(e) && WorkerReady(c, s, e.w)
    requires e.AcquireSlot? || e.ApplyReport? || (e.PollStart? && s.workers[e.w].task.kind in c.pollers)
    ensures var s' := Next(c, s, e);
      && e.w in s'.workers && s'.workers[e.w].id == s.workers[e.w].id
      && CanWrite(c, s'.workers[e.w])
      && Rank(s'.workers[e.w].phase) < Rank(s.workers[e.w].phase)
  {
  }

  lemma Overwrites(c: Config, s: State, e: Event)
    requires Enabled(c, s, e) && OfWorker(e) && WriteOk(e) && e.w in s.workers && WorkerOk(c, s, e.w)
    requires e.Begin? || e.Progress? || e.PollTimeout? || e.SaveCompleted?
      || (e.PollStart? && s.workers[e.w].task.kind !in c.pollers)
    ensures s.workers[e.w].id in Next(c, s, e).store
    ensures Next(c, s, e).store[s.workers[e.w].id].status != Cancelled
  {
  }

  lemma {:induction false} Concat(c: Config, s: State, a: seq<Event>, b: seq<Event>)
    requires Legal(c, s, a) && Legal(c, Run(c, s, a), b)
    ensures Legal(c, s, a + b) && Run(c, s, a + b) == Run(c, Run(c, s, a), b)
    decreases |a|
  {
    if a == [] {
      assert a + b == b;
    } else {
      Concat(c, Next(c, s, a[0]), a[1..], b);
      Prepend(c, s, a[0], a[1..] + b);
      assert a + b == [a[0]] + (a[1..] + b);
    }
  }

  /** A listed task that recovery has yet to handle: the reset writes its row, or the
      executor that is launched can. */
  lemma {:induction false} RequeueOverwrites(c: Config, s: State, id: TaskId) returns (es: seq<Event>)
    requires Inv(c, s) && s.boot.Requeue? && WillWrite(c, s, id)
    ensures Legal(c, s, es)
    ensures id in Run(c, s, es).store && Run(c, s, es).store[id].status != Cancelled
    decreases |Todo(s)|
  {
    var head := s.boot.todo[0];
    var e := RequeueNext(true);
    assert StillThere(s, head, s.history.listed[head]);
    InvStep(c, s, e);
    NextWorkerIsNew(c, s);
    TailOf(s.boot.todo);
    var rest: seq<Event> := [];
    if head != id {
      rest := RequeueOverwrites(c, Next(c, s, e), id);
    } else if s.history.listed[id].status != Running {
      rest := Overwrite(c, Next(c, s, e), s.nextWorker);
    }
    Prepend(c, s, e, rest);
    es := [e] + rest;
  }

  lemma {:induction false} ResumeOverwrites(c: Config, s: State, id: TaskId) returns (es: seq<Event>)
    requires Inv(c, s) && s.boot.Resume? && id in s.boot.todo
    ensures Legal(c, s, es)
    ensures id in Run(c, s, es).store && Run(c, s, es).store[id].status != Cancelled
    decreases |Todo(s)|
  {
    var head := s.boot.todo[0];
    assert head in Todo(s) && StillThere(s, head, s.boot.rows[head]);
    InvStep(c, s, ResumeNext);
    NextWorkerIsNew(c, s);
    TailOf(s.boot.todo);
    var rest;
    if head != id {
      rest := ResumeOverwrites(c, Next(c, s, ResumeNext), id);
    } else {
      rest := Overwrite(c, Next(c, s, ResumeNext), s.nextWorker);
    }
    Prepend(c, s, ResumeNext, rest);
    es := [ResumeNext] + rest;
  }

  /** Cancel stops neither a live worker nor a Start that has listed the task. In every
      reachable state a cancelled row is certain to stay cancelled exactly if no live
      worker of that task can still write and Start holds no copy of the row that it
      will write back or launch a writing worker with. */
  lemma CancelIsFinalIff(c: Config, s: State, id: TaskId)
    requires Inv(c, s) && id in s.store && s.store[id].status == Cancelled
    ensures StaysCancelled(c, s, id) <==> !HasWriter(c, s, id) && !WillWrite(c, s, id)
  {
    if HasWriter(c, s, id) {
      var w :| w in s.workers && s.workers[w].id == id && CanWrite(c, s.workers[w]);
      var es := Overwrite(c, s, w);
      assert Legal(c, s, es);
    } else if WillWrite(c, s, id) {
      var es;
      if s.boot.Requeue? {
        es := RequeueOverwrites(c, s, id);
      } else {
        es := ResumeOverwrites(c, s, id);
      }
      assert Legal(c, s, es);
    } else {
      QuietStaysCancelled(c, s, id);
    }
  }

  lemma QuietStaysCancelled(c: Config, s: State, id: TaskId)
    requires Inv(c, s) && id in s.store && s.store[id].status == Cancelled
    requires !HasWriter(c, s, id) && !WillWrite(c, s, id)
    ensures StaysCancelled(c, s, id)
  {
    assert Quiet(c, s, id);
    forall es | Legal(c, s, es)
      ensures id in Run(c, s, es).store && Run(c, s, es).store[id].status == Cancelled
    {
      FinishedStaysFinished(c, s, es, id);
      forall k | k in s.cancels ensures s.cancels[k].row.status == Cancelled {
        assert CancelOk(s, k);
      }
    }
  }
}
