/** Submissions that come before Start has looked for such tasks: exactly they can end
    up with two workers. */
module TaskEarly {
  import opened Options
  import opened TaskModel
  import opened TaskSafety
  import opened TaskRuns
  import opened TaskRestart

  ghost predicate TwoWorkers(s: State, id: TaskId) {
    exists v, w :: v in s.workers && w in s.workers && v != w && s.workers[v].id == s.workers[w].id == id
  }

  ghost predicate CanDouble(c: Config, s: State, id: TaskId) {
    exists es :: Legal(c, s, es) && TwoWorkers(Run(c, s, es), id)
  }

  lemma {:induction false} Enumerate(ids: set<TaskId>) returns (order: seq<TaskId>)
    ensures Enumerates(order, ids)
    decreases |ids|
  {
    order := [];
    if ids != {} {
      var x :| x in ids;
      var rest := Enumerate(ids - {x});
      order := [x] + rest;
    }
  }

  lemma EnumerateFrom(ids: set<TaskId>, x: TaskId) returns (order: seq<TaskId>)
    requires x in ids
    ensures Enumerates(order, ids) && order != [] && order[0] == x
  {
    var rest := Enumerate(ids - {x});
    order := [x] + rest;
  }

  lemma DrainStep(c: Config, s: State)
    requires s.boot.Requeue? && s.boot.todo != [] && s.boot.todo[0] in s.history.listed
    requires s.nextWorker !in s.workers
    ensures var s' := RequeueNextStep(s, false);
      && s'.boot == Requeue(s.boot.todo[1..]) && s'.store == s.store
      && forall w :: w in s.workers ==> w in s'.workers && s'.workers[w] == s.workers[w]
  {
  }

  /** Recovery can get to its second listing without writing, and stops no worker. */
  lemma {:induction false} Drain(c: Config, s: State) returns (es: seq<Event>)
    requires Inv(c, s) && s.boot.Requeue?
    ensures Legal(c, s, es) && Run(c, s, es).boot == Requeue([]) && Run(c, s, es).store == s.store
    ensures forall w :: w in s.workers ==> w in Run(c, s, es).workers && Run(c, s, es).workers[w] == s.workers[w]
    decreases |Todo(s)|
  {
    if s.boot.todo == [] {
      es := [];
    } else {
      assert s.boot.todo[0] in Todo(s);
      NextWorkerIsNew(c, s);
      DrainStep(c, s);
      InvStep(c, s, RequeueNext(false));
      var rest := Drain(c, Next(c, s, RequeueNext(false)));
      Prepend(c, s, RequeueNext(false), rest);
      es := [RequeueNext(false)] + rest;
    }
  }

  lemma ResumeDoubles(c: Config, s: State, id: TaskId, w: WorkerId) returns (es: seq<Event>)
    requires Inv(c, s) && s.boot == Requeue([]) && id in RunningExternal(s.store)
    requires w in s.workers && s.workers[w].id == id
    ensures Legal(c, s, es) && TwoWorkers(Run(c, s, es), id)
  {
    var order := EnumerateFrom(RunningExternal(s.store).Keys, id);
    var e := ListExternal(order);
    var s1 := Next(c, s, e);
    NextWorkerIsNew(c, s);
    Prepend(c, s1, ResumeNext, []);
    Prepend(c, s, e, [ResumeNext]);
    es := [e] + [ResumeNext];
    var s2 := Next(c, s1, ResumeNext);
    assert w in s2.workers && s.nextWorker in s2.workers && s2.workers[s.nextWorker].id == id;
  }

  lemma ExternalDoubles(c: Config, s: State, id: TaskId, w: WorkerId) returns (es: seq<Event>)
    requires Inv(c, s) && s.boot.Requeue? && id in RunningExternal(s.store)
    requires w in s.workers && s.workers[w].id == id
    ensures Legal(c, s, es) && TwoWorkers(Run(c, s, es), id)
  {
    var a := Drain(c, s);
    InvRun(c, s, a);
    var b := ResumeDoubles(c, Run(c, s, a), id, w);
    Concat(c, s, a, b);
    es := a + b;
  }

  lemma InProcessDoubles(c: Config, s: State, id: TaskId, w: WorkerId) returns (es: seq<Event>)
    requires Inv(c, s) && s.boot == Fresh && w in s.workers && s.workers[w].id == id
    requires id in s.store && s.store[id].status == Pending && s.store[id].external == ""
    ensures Legal(c, s, es) && TwoWorkers(Run(c, s, es), id)
  {
    var order := EnumerateFrom(NonTerminal(s.store).Keys, id);
    var e := ListPending(order);
    var s1 := Next(c, s, e);
    NextWorkerIsNew(c, s);
    Prepend(c, s1, RequeueNext(true), []);
    Prepend(c, s, e, [RequeueNext(true)]);
    es := [e] + [RequeueNext(true)];
    var s2 := Next(c, s1, RequeueNext(true));
    assert w in s2.workers && s.nextWorker in s2.workers && s2.workers[s.nextWorker].id == id;
  }

  lemma NotEarlyNeverDoubles(c: Config, s: State, id: TaskId)
    requires Inv(c, s) && id in s.store && id !in s.history.early
    ensures !CanDouble(c, s, id)
  {
    forall es | Legal(c, s, es) ensures !TwoWorkers(Run(c, s, es), id) {
      NotEarlyLater(c, s, es, id);
    }
  }

  lemma FreshExternalDoubles(c: Config, s: State, id: TaskId, w: WorkerId) returns (es: seq<Event>)
    requires Inv(c, s) && s.boot == Fresh && id in RunningExternal(s.store)
    requires w in s.workers && s.workers[w].id == id
    ensures Legal(c, s, es) && TwoWorkers(Run(c, s, es), id)
  {
    var order := Enumerate(NonTerminal(s.store).Keys);
    var e := ListPending(order);
    InvStep(c, s, e);
    var rest := ExternalDoubles(c, Next(c, s, e), id, w);
    Prepend(c, s, e, rest);
    es := [e] + rest;
  }

  lemma EarlyDoubles(c: Config, s: State, e: Event)
    requires Inv(c, s) && Enabled(c, s, e) && (e.Submit? || e.SubmitExternal?) && e.ok && !Timely(s, e)
    ensures CanDouble(c, Next(c, s, e), e.id)
  {
    var s1, id := Next(c, s, e), e.id;
    InvStep(c, s, e);
    var es;
    if e.Submit? {
      es := InProcessDoubles(c, s1, id, s.nextWorker);
    } else if s.boot.Requeue? {
      es := ExternalDoubles(c, s1, id, s.nextWorker);
    } else {
      es := FreshExternalDoubles(c, s1, id, s.nextWorker);
    }
    assert Legal(c, s1, es);
  }

  /** A successful submission can come to two live workers, in some continuation of the
      run, exactly if it comes before the listing of Start that will find its task: the
      first one, or, for an external task, the second. */
  lemma SecondWorkerIff(c: Config, s: State, e: Event)
    requires Inv(c, s) && Enabled(c, s, e) && (e.Submit? || e.SubmitExternal?) && e.ok
    ensures CanDouble(c, Next(c, s, e), e.id) <==> !Timely(s, e)
  {
    if Timely(s, e) {
      InvStep(c, s, e);
      EarlyStep(c, s, e);
      NotEarlyNeverDoubles(c, Next(c, s, e), e.id);
    } else {
      EarlyDoubles(c, s, e);
    }
  }
}
