/** The strategy chain as the program builds and runs it: candidates are objects
    whose score, breakdown and reasons are updated in place. */
module StrategyChain {
  import opened Routing

  // ---------- order of the strategies ----------

  ghost predicate Descending(ss: seq<Strategy>) {
    forall i, j :: 0 <= i < j < |ss| ==> ss[i].Priority() >= ss[j].Priority()
  }

  /** Equal priorities only if the strategies are the same. */
  ghost predicate DistinctPriorities(ss: multiset<Strategy>) {
    forall s, t :: s in ss && t in ss && s.Priority() == t.Priority() ==> s == t
  }

  /** What sorting `ss` by priority may yield: the sort is not stable. */
  ghost predicate Sorted(ss: seq<Strategy>, r: seq<Strategy>) {
    multiset(r) == multiset(ss) && Descending(r)
  }

  lemma MultisetTail<T>(s: seq<T>)
    requires s != []
    ensures multiset(s) == multiset{s[0]} + multiset(s[1..])
  {
    assert s == [s[0]] + s[1..];
  }

  lemma SameHead(a: seq<Strategy>, b: seq<Strategy>)
    requires multiset(a) == multiset(b) && Descending(a) && Descending(b) && DistinctPriorities(multiset(a))
    requires a != [] && b != []
    ensures a[0] == b[0]
  {
    assert a[0] in multiset(b) && b[0] in multiset(a);
    var i :| 0 <= i < |a| && a[i] == b[0];
    var j :| 0 <= j < |b| && b[j] == a[0];
    assert a[0].Priority() == b[0].Priority();
  }

  lemma SameTails<T>(a: seq<T>, b: seq<T>)
    requires multiset(a) == multiset(b) && a != [] && b != [] && a[0] == b[0]
    ensures multiset(a[1..]) == multiset(b[1..]) && multiset(a[1..]) <= multiset(a)
  {
    MultisetTail(a);
    MultisetTail(b);
    assert multiset(a[1..]) == multiset(a) - multiset{a[0]};
    assert multiset(b[1..]) == multiset(b) - multiset{b[0]};
  }

  lemma SameLength<T>(a: seq<T>, b: seq<T>)
    requires multiset(a) == multiset(b)
    ensures |a| == |b|
  {
    assert |a| == |multiset(a)|;
  }

  lemma SmallerIsDistinct(ss: multiset<Strategy>, tt: multiset<Strategy>)
    requires DistinctPriorities(ss) && tt <= ss
    ensures DistinctPriorities(tt)
  {
    forall s, t | s in tt && t in tt && s.Priority() == t.Priority() ensures s == t {
      assert s in ss && t in ss;
    }
  }

  lemma BothTails(a: seq<Strategy>, b: seq<Strategy>)
    requires multiset(a) == multiset(b) && Descending(a) && Descending(b) && DistinctPriorities(multiset(a))
    requires a != []
    ensures b != [] && a[0] == b[0] && multiset(a[1..]) == multiset(b[1..])
    ensures Descending(a[1..]) && Descending(b[1..]) && DistinctPriorities(multiset(a[1..]))
  {
    SameLength(a, b);
    SameHead(a, b);
    SameTails(a, b);
    SmallerIsDistinct(multiset(a), multiset(a[1..]));
  }

  lemma Rebuilt<T>(a: seq<T>, b: seq<T>)
    requires a != [] && b != [] && a[0] == b[0] && a[1..] == b[1..]
    ensures a == b
  {
    assert a == [a[0]] + a[1..] && b == [b[0]] + b[1..];
  }

  /** With distinct priorities there is one sorted order. */
  lemma {:induction false} OneOrder(a: seq<Strategy>, b: seq<Strategy>)
    requires multiset(a) == multiset(b) && Descending(a) && Descending(b) && DistinctPriorities(multiset(a))
    ensures a == b
    decreases |a|
  {
    if a == [] {
      SameLength(a, b);
    } else {
      BothTails(a, b);
      OneOrder(a[1..], b[1..]);
      Rebuilt(a, b);
    }
  }

  /** `r` can result from `ss` by calls of AddStrategy with `added`, in this order. */
  ghost predicate Built(ss: seq<Strategy>, added: seq<Strategy>, r: seq<Strategy>)
    decreases |added|
  {
    if added == [] then r == ss
    else exists t :: Sorted(ss + [added[0]], t) && Built(t, added[1..], r)
  }

  lemma {:induction false} BuiltIsSorted(ss: seq<Strategy>, added: seq<Strategy>, r: seq<Strategy>)
    requires Descending(ss) && Built(ss, added, r)
    ensures Sorted(ss + added, r)
    decreases |added|
  {
    if added == [] {
      assert ss + added == ss;
    } else {
      var t :| Sorted(ss + [added[0]], t) && Built(t, added[1..], r);
      BuiltIsSorted(t, added[1..], r);
      assert ss + added == ss + [added[0]] + added[1..];
    }
  }

  /** Building a chain is canonical: the same strategies with distinct priorities,
      split in any way between the constructor and AddStrategy and given in any
      order, are executed in the same order. */
  lemma ChainIsCanonical(first: seq<Strategy>, start: seq<Strategy>, added: seq<Strategy>, r: seq<Strategy>,
                         first': seq<Strategy>, start': seq<Strategy>, added': seq<Strategy>, r': seq<Strategy>)
    requires Sorted(first, start) && Built(start, added, r)
    requires Sorted(first', start') && Built(start', added', r')
    requires multiset(first + added) == multiset(first' + added') && DistinctPriorities(multiset(first + added))
    ensures r == r'
  {
    BuiltIsSorted(start, added, r);
    BuiltIsSorted(start', added', r');
    assert multiset(start + added) == multiset(start) + multiset(added);
    assert multiset(start' + added') == multiset(start') + multiset(added');
    assert multiset(first + added) == multiset(first) + multiset(added);
    assert multiset(first' + added') == multiset(first') + multiset(added');
    OneOrder(r, r');
  }

  lemma BuiltInPriorities(s: Strategy, t: Strategy)
    requires !s.Custom? && !t.Custom? && s.Priority() == t.Priority()
    ensures s == t
  {
  }

  lemma DefaultIsBuiltIn(s: Strategy)
    requires s in multiset(DEFAULT)
    ensures !s.Custom?
  {
    assert s in DEFAULT;
  }

  lemma DefaultIsDistinct()
    ensures DistinctPriorities(multiset(DEFAULT))
  {
    forall s, t | s in multiset(DEFAULT) && t in multiset(DEFAULT) && s.Priority() == t.Priority() ensures s == t {
      DefaultIsBuiltIn(s);
      DefaultIsBuiltIn(t);
      BuiltInPriorities(s, t);
    }
  }

  lemma DefaultDescends()
    ensures Descending(DEFAULT)
  {
    var ps := [100, 90, 80, 70, 50, 10];
    forall i | 0 <= i < 6 ensures DEFAULT[i].Priority() == ps[i] {}
  }

  /** The default strategies run from user preference to load balancing. */
  lemma DefaultOrder(r: seq<Strategy>)
    requires Sorted(DEFAULT, r)
    ensures r == DEFAULT
    ensures r == [UserPreference, HealthFilter, CapabilityFilter, ContextWindow, CostOptimization, LoadBalancing]
  {
    DefaultIsDistinct();
    DefaultDescends();
    OneOrder(DEFAULT, r);
  }

  // ---------- the breakdown of a score ----------

  function Names(ss: seq<Strategy>): seq<string> {
    seq(|ss|, i requires 0 <= i < |ss| => ss[i].Name())
  }

  function SumOf(breakdown: map<string, real>, names: seq<string>): real {
    if names == [] then 0.0 else
    var last := names[|names| - 1];
    SumOf(breakdown, names[..|names| - 1]) + if last in breakdown then breakdown[last] else 0.0
  }

  ghost predicate Distinct(names: seq<string>) {
    forall i, j :: 0 <= i < j < |names| ==> names[i] != names[j]
  }

  /** The score is the sum of the breakdown, which has entries for `names` only. */
  ghost predicate Tallied(c: Candidate, names: seq<string>) {
    (forall n :: n in c.breakdown ==> n in names) && c.score == SumOf(c.breakdown, names)
  }

  lemma {:induction false} SumElsewhere(breakdown: map<string, real>, names: seq<string>, n: string, x: real)
    requires n !in names
    ensures SumOf(breakdown[n := x], names) == SumOf(breakdown, names)
    decreases |names|
  {
    if names != [] {
      SumElsewhere(breakdown, names[..|names| - 1], n, x);
    }
  }

  lemma TalliedAdd(c: Candidate, names: seq<string>, n: string, x: real, reason: string)
    requires Tallied(c, names) && n !in names
    ensures Tallied(Add(c, n, x, reason), names + [n]) && Tallied(c, names + [n])
  {
    SumElsewhere(c.breakdown, names, n, x);
    assert (names + [n])[..|names|] == names;
  }

  lemma TalliedStep(s: Strategy, k: nat, ctx: Context, cs: seq<Candidate>, jitter: Jitter, names: seq<string>)
    requires (forall c :: c in cs ==> Tallied(c, names)) && s.Name() !in names
    ensures forall c :: c in ScoreSpec(s, k, ctx, FilterSpec(s, ctx, cs), jitter) ==> Tallied(c, names + [s.Name()])
  {
    var kept := FilterSpec(s, ctx, cs);
    forall t: Test { KeepSome(t, cs); }
    forall c | c in ScoreSpec(s, k, ctx, kept, jitter) ensures Tallied(c, names + [s.Name()]) {
      var i :| 0 <= i < |kept| && c == ScoreOne(s, k, ctx, kept, jitter, i, kept[i]);
      assert kept[i] in cs;
      TalliedOne(s, k, ctx, kept, jitter, i, kept[i], names);
    }
  }

  lemma TalliedOne(s: Strategy, k: nat, ctx: Context, cs: seq<Candidate>, jitter: Jitter, i: nat, c: Candidate,
                   names: seq<string>)
    requires Tallied(c, names) && s.Name() !in names
    ensures Tallied(ScoreOne(s, k, ctx, cs, jitter, i, c), names + [s.Name()])
  {
    var d := ScoreOne(s, k, ctx, cs, jitter, i, c);
    TalliedAdd(c, names, s.Name(), 0.0, "");
    if d != c {
      var x := d.breakdown[s.Name()];
      var reason := if d.reasons == c.reasons then "" else d.reasons[|d.reasons| - 1];
      TalliedAdd(c, names, s.Name(), x, reason);
    }
  }

  /** With distinct names every final score equals the sum of its breakdown. */
  lemma {:induction false} ScoresAreTheirBreakdowns(ss: seq<Strategy>, k: nat, ctx: Context, cs: seq<Candidate>,
                                                    jitter: Jitter)
    requires k <= |ss| && Distinct(Names(ss)) && forall c :: c in cs ==> Tallied(c, Names(ss)[..k])
    requires RunSpec(ss, k, ctx, cs, jitter).Ranked?
    ensures forall c :: c in RunSpec(ss, k, ctx, cs, jitter).candidates ==> Tallied(c, Names(ss))
    decreases |ss| - k
  {
    assert Names(ss)[..|ss|] == Names(ss);
    if k < |ss| {
      assert Names(ss)[k] == ss[k].Name() && ss[k].Name() !in Names(ss)[..k];
      TalliedStep(ss[k], k, ctx, cs, jitter, Names(ss)[..k]);
      assert Names(ss)[..k] + [ss[k].Name()] == Names(ss)[..k + 1];
      ScoresAreTheirBreakdowns(ss, k + 1, ctx, ScoreSpec(ss[k], k, ctx, FilterSpec(ss[k], ctx, cs), jitter), jitter);
    }
  }

  const POINT := Custom("name", 1, _ => true, _ => 1.0, "")

  lemma PointStep(k: nat, ctx: Context, c: Candidate, jitter: Jitter)
    ensures FilterSpec(POINT, ctx, [c]) == [c]
    ensures ScoreSpec(POINT, k, ctx, [c], jitter) == [Add(c, "name", 1.0, "")]
  {
    assert [c][..0] == [] && Keep(Chosen(POINT.keep), []) == [];
    assert Chosen(POINT.keep).Passes(c.model);
  }

  /** With equal names an entry is overwritten: score 2, breakdown 1. */
  lemma EqualNamesLoseAnEntry(ctx: Context, m: Model, jitter: Jitter)
    ensures ExecuteSpec([POINT, POINT], ctx, Fresh([m]), jitter)
         == Ranked([Candidate(m, 2.0, map["name" := 1.0], [])])
  {
    var c := Candidate(m, 0.0, map[], []);
    var d, ss := Add(c, "name", 1.0, ""), [POINT, POINT];
    assert Fresh([m]) == [c];
    PointStep(0, ctx, c, jitter);
    PointStep(1, ctx, d, jitter);
    assert RunSpec(ss, 0, ctx, [c], jitter) == RunSpec(ss, 1, ctx, [d], jitter);
    assert RunSpec(ss, 1, ctx, [d], jitter) == RunSpec(ss, 2, ctx, [Add(d, "name", 1.0, "")], jitter);
    assert map["name" := 1.0]["name" := 1.0] == map["name" := 1.0];
  }
}
