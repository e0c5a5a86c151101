/** One stage of the engine: a feeder hands check indices over an unbuffered
    channel to a fixed number of workers that fill the results slice. */
module WorkerPool {
  import opened Wrappers

  datatype Worker = Waiting | Checking(index: nat) | Gone

  /** runs records, in completion order, which check ran with which result. */
  datatype Ran<R> = Ran(index: nat, result: R)

  datatype State<R> = State(
    n: nat, workers: seq<Worker>, next: nat, jobsClosed: bool, results: seq<Option<R>>, runs: seq<Ran<R>>)

  datatype Event<R> =
    | HandOver(w: nat)
    | Complete(w: nat, result: R)
    | CloseJobs
    | Leave(w: nat)

  /** New's normalisation of the configured concurrency. */
  function Concurrency(configured: int): (c: nat)
    ensures 1 <= c <= 32
    ensures 1 <= configured <= 32 ==> c == configured
    ensures configured < 1 ==> c == 4
    ensures configured > 32 ==> c == 32
  {
    if configured < 1 then 4 else if configured > 32 then 32 else configured
  }

  function Workers(configured: int, n: nat): nat {
    if Concurrency(configured) > n then n else Concurrency(configured)
  }

  function Initial<R>(configured: int, n: nat): State<R> {
    State(n, seq(Workers(configured, n), _ => Waiting), 0, false, seq(n, _ => None), [])
  }

  predicate Enabled<R>(s: State<R>, e: Event<R>) {
    match e
    case HandOver(w) => w < |s.workers| && s.workers[w] == Waiting && s.next < s.n
    case Complete(w, _) => w < |s.workers| && s.workers[w].Checking? && s.workers[w].index < |s.results|
    case CloseJobs => s.next == s.n && !s.jobsClosed
    case Leave(w) => w < |s.workers| && s.workers[w] == Waiting && s.jobsClosed
  }

  function Apply<R>(s: State<R>, e: Event<R>): State<R>
    requires Enabled(s, e)
  {
    match e
    case HandOver(w) => s.(workers := s.workers[w := Checking(s.next)], next := s.next + 1)
    case Complete(w, r) =>
      var i := s.workers[w].index;
      s.(workers := s.workers[w := Waiting], results := s.results[i := Some(r)], runs := s.runs + [Ran(i, r)])
    case CloseJobs => s.(jobsClosed := true)
    case Leave(w) => s.(workers := s.workers[w := Gone])
  }

  /** wait.Wait has returned. */
  predicate Done<R>(s: State<R>) {
    s.jobsClosed && forall w | 0 <= w < |s.workers| :: s.workers[w] == Gone
  }

  ghost predicate Inv<R>(s: State<R>) {
    && |s.results| == s.n && s.next <= s.n
    && (s.n > 0 ==> |s.workers| > 0)
    && (s.jobsClosed ==> s.next == s.n)
    && (forall w | 0 <= w < |s.workers| && s.workers[w] == Gone :: s.jobsClosed)
    // a check is with at most one worker, and then has been handed over but not completed
    && (forall w | 0 <= w < |s.workers| && s.workers[w].Checking? ::
          s.workers[w].index < s.next && s.results[s.workers[w].index].None?)
    && (forall v, w | 0 <= v < w < |s.workers| && s.workers[v].Checking? && s.workers[w].Checking? ::
          s.workers[v].index != s.workers[w].index)
    && (forall i | 0 <= i < s.next && s.results[i].None? :: Checking(i) in s.workers)
    && (forall i | s.next <= i < s.n :: s.results[i].None?)
    // a completed check ran once, with the result that is stored
    && (forall j | 0 <= j < |s.runs| :: s.runs[j].index < s.n && s.results[s.runs[j].index] == Some(s.runs[j].result))
    && (forall j, k | 0 <= j < k < |s.runs| :: s.runs[j].index != s.runs[k].index)
    && (forall i | 0 <= i < s.n && s.results[i].Some? :: Ran(i, s.results[i].value) in s.runs)
  }

  lemma CompleteInv<R>(s: State<R>, w: nat, r: R)
    requires Inv(s) && Enabled(s, Complete(w, r))
    ensures Inv(Apply(s, Complete(w, r)))
  {
    var t := Apply(s, Complete(w, r));
    var done := s.workers[w].index;
    assert forall j | 0 <= j < |s.runs| :: s.runs[j].index != done;
    assert t.runs[|s.runs|] == Ran(done, r);
    forall i | 0 <= i < t.n && t.results[i].Some? ensures Ran(i, t.results[i].value) in t.runs {
      if i != done { assert Ran(i, s.results[i].value) in s.runs; }
    }
    forall i | 0 <= i < t.next && t.results[i].None? ensures Checking(i) in t.workers {
      assert Checking(i) in s.workers;
      var v :| 0 <= v < |s.workers| && s.workers[v] == Checking(i);
      assert t.workers[v] == Checking(i);
    }
  }

  lemma OtherInv<R>(s: State<R>, e: Event<R>)
    requires Inv(s) && Enabled(s, e) && !e.Complete?
    ensures Inv(Apply(s, e))
  {
    var t := Apply(s, e);
    forall i | 0 <= i < t.next && t.results[i].None? ensures Checking(i) in t.workers {
      if i < s.next {
        var v :| 0 <= v < |s.workers| && s.workers[v] == Checking(i);
        assert t.workers[v] == Checking(i);
      } else {
        assert t.workers[e.w] == Checking(i);
      }
    }
  }

  predicate IsRun<R>(s: State<R>, es: seq<Event<R>>)
    decreases |es|
  {
    es == [] || (Enabled(s, es[0]) && IsRun(Apply(s, es[0]), es[1..]))
  }

  function Final<R>(s: State<R>, es: seq<Event<R>>): State<R>
    requires IsRun(s, es)
    decreases |es|
  {
    if es == [] then s else Final(Apply(s, es[0]), es[1..])
  }

  lemma {:induction false} RunInv<R>(s: State<R>, es: seq<Event<R>>)
    requires Inv(s) && IsRun(s, es)
    ensures Inv(Final(s, es)) && Final(s, es).n == s.n && |Final(s, es).workers| == |s.workers|
    decreases |es|
  {
    if es != [] {
      if es[0].Complete? { CompleteInv(s, es[0].w, es[0].result); } else { OtherInv(s, es[0]); }
      RunInv(Apply(s, es[0]), es[1..]);
    }
  }

  function Busy<R>(s: State<R>): set<nat> {
    set w | 0 <= w < |s.workers| && s.workers[w].Checking?
  }

  /** In every interleaving, when the stage is done each check has run exactly
      once and the results slice holds its result at its own place. */
  lemma StageRefinesLoop<R>(configured: int, n: nat, es: seq<Event<R>>)
    requires IsRun(Initial<R>(configured, n), es) && Done(Final(Initial<R>(configured, n), es))
    ensures
      var t := Final(Initial<R>(configured, n), es);
      && |t.results| == n
      && (forall i | 0 <= i < n :: t.results[i].Some? && Ran(i, t.results[i].value) in t.runs)
      && (forall j, k | 0 <= j < k < |t.runs| :: t.runs[j].index != t.runs[k].index)
      && (forall j | 0 <= j < |t.runs| :: t.runs[j].index < n)
  {
    RunInv(Initial<R>(configured, n), es);
    var t := Final(Initial<R>(configured, n), es);
    assert forall w | 0 <= w < |t.workers| :: !t.workers[w].Checking?;
  }

  /** So if check i yields f(i) whenever it runs, the stage returns what a
      sequential loop returns. */
  lemma StageEqualsSequential<R>(configured: int, n: nat, es: seq<Event<R>>, f: nat -> R)
    requires IsRun(Initial<R>(configured, n), es) && Done(Final(Initial<R>(configured, n), es))
    requires forall j | 0 <= j < |Final(Initial<R>(configured, n), es).runs| ::
      var ran := Final(Initial<R>(configured, n), es).runs[j]; ran.result == f(ran.index)
    ensures Final(Initial<R>(configured, n), es).results == seq(n, i requires 0 <= i < n => Some(f(i)))
  {
    StageRefinesLoop(configured, n, es);
    var t := Final(Initial<R>(configured, n), es);
    forall i | 0 <= i < n ensures t.results[i] == Some(f(i)) {
      var ran := Ran(i, t.results[i].value);
      assert ran in t.runs;
      var j :| 0 <= j < |t.runs| && t.runs[j] == ran;
    }
  }

  /** Never more checks at once than there are, than the configured limit (4
      without one), or than 32. */
  lemma ConcurrencyBound<R>(configured: int, n: nat, es: seq<Event<R>>)
    requires IsRun(Initial<R>(configured, n), es)
    ensures
      var busy := |Busy(Final(Initial<R>(configured, n), es))|;
      busy <= n && busy <= 32 && busy <= if configured < 1 then 4 else configured
  {
    RunInv(Initial<R>(configured, n), es);
    BusyBound(Busy(Final(Initial<R>(configured, n), es)), Workers(configured, n));
  }

  lemma {:induction false} RunAppend<R>(s: State<R>, es: seq<Event<R>>, e: Event<R>)
    requires IsRun(s, es) && Enabled(Final(s, es), e)
    ensures IsRun(s, es + [e]) && Final(s, es + [e]) == Apply(Final(s, es), e)
    decreases |es|
  {
    if es == [] {
      assert ([] + [e])[1..] == [];
    } else {
      RunAppend(Apply(s, es[0]), es[1..], e);
      assert (es + [e])[1..] == es[1..] + [e];
    }
  }

  /** The first k checks are with the first k workers and nothing is completed. */
  predicate Handed<R>(t: State<R>, n: nat, workers: nat, k: nat) {
    && t.n == n && t.next == k && |t.workers| == workers
    && forall w | 0 <= w < workers :: t.workers[w] == if w < k then Checking(w) else Waiting
  }

  lemma HandNext<R>(t: State<R>, n: nat, workers: nat, k: nat)
    requires Handed(t, n, workers, k) && k < workers <= n
    ensures Enabled(t, HandOver(k)) && Handed(Apply(t, HandOver(k)), n, workers, k + 1)
  {
  }

  lemma OneMoreBusy<R>(t: State<R>, n: nat, workers: nat, k: nat)
    requires Handed(t, n, workers, k) && k < workers <= n
    ensures |Busy(Apply(t, HandOver(k)))| == |Busy(t)| + 1
  {
    assert Busy(Apply(t, HandOver(k))) == Busy(t) + {k};
  }

  lemma {:induction false} HandOverAll<R>(configured: int, n: nat, k: nat) returns (es: seq<Event<R>>)
    requires k <= Workers(configured, n)
    ensures IsRun(Initial<R>(configured, n), es)
    ensures Handed(Final(Initial<R>(configured, n), es), n, Workers(configured, n), k)
    ensures |Busy(Final(Initial<R>(configured, n), es))| == k
  {
    es := [];
    if k == 0 {
      assert Busy(Initial<R>(configured, n)) == {};
    } else {
      es := HandOverAll<R>(configured, n, k - 1);
      var t := Final(Initial<R>(configured, n), es);
      HandNext(t, n, Workers(configured, n), k - 1);
      OneMoreBusy(t, n, Workers(configured, n), k - 1);
      RunAppend(Initial<R>(configured, n), es, HandOver(k - 1));
      es := es + [HandOver(k - 1)];
    }
  }

  /** The bound is sharp: some interleaving keeps that many workers busy. */
  lemma ConcurrencyReached<R>(configured: int, n: nat) returns (es: seq<Event<R>>)
    ensures IsRun(Initial<R>(configured, n), es)
    ensures |Busy(Final(Initial<R>(configured, n), es))| == Workers(configured, n)
  {
    es := HandOverAll<R>(configured, n, Workers(configured, n));
  }

  lemma BusyBound(a: set<nat>, k: nat)
    requires forall w | w in a :: w < k
    ensures |a| <= k
  {
    if k == 0 {
      assert a == {};
    } else {
      BusyBound(a - {k - 1}, k - 1);
    }
  }

  // ----- every interleaving ends -----

  function Weight(w: Worker): nat {
    match w
    case Waiting => 1
    case Checking(_) => 2
    case Gone => 0
  }

  function Sum(ws: seq<Worker>): nat {
    if ws == [] then 0 else Sum(ws[..|ws|-1]) + Weight(ws[|ws|-1])
  }

  lemma {:induction false} SumUpdate(ws: seq<Worker>, i: nat, w: Worker)
    requires i < |ws|
    ensures Sum(ws[i := w]) == Sum(ws) - Weight(ws[i]) + Weight(w)
    decreases |ws|
  {
    var n := |ws| - 1;
    if i == n {
      assert ws[i := w][..n] == ws[..n];
    } else {
      SumUpdate(ws[..n], i, w);
      assert ws[i := w][..n] == ws[..n][i := w];
    }
  }

  /** Steps a stage still has to take. */
  function StepsLeft<R>(s: State<R>): int {
    Sum(s.workers) + 2 * (s.n - s.next) + (if s.jobsClosed then 0 else 1)
  }

  lemma {:induction false} StepsCounted<R>(s: State<R>, es: seq<Event<R>>)
    requires IsRun(s, es)
    ensures |es| + StepsLeft(Final(s, es)) == StepsLeft(s)
    decreases |es|
  {
    if es != [] {
      match es[0] {
        case HandOver(w) => SumUpdate(s.workers, w, Checking(s.next));
        case Complete(w, _) => SumUpdate(s.workers, w, Waiting);
        case CloseJobs =>
        case Leave(w) => SumUpdate(s.workers, w, Gone);
      }
      StepsCounted(Apply(s, es[0]), es[1..]);
    }
  }

  /** No deadlock: while the stage is not done, a step is possible. */
  lemma Progress<R>(s: State<R>, r: R) returns (e: Event<R>)
    requires Inv(s) && !Done(s)
    ensures Enabled(s, e)
  {
    if w :| 0 <= w < |s.workers| && s.workers[w].Checking? {
      e := Complete(w, r);
    } else if s.next < s.n {
      e := HandOver(0);
    } else if !s.jobsClosed {
      e := CloseJobs;
    } else {
      var w :| 0 <= w < |s.workers| && s.workers[w] != Gone;
      e := Leave(w);
    }
  }

  /** Every interleaving has at most 2n + workers + 1 steps, and one that cannot
      go on is done. */
  lemma StageTerminates<R>(configured: int, n: nat, es: seq<Event<R>>, r: R)
    requires IsRun(Initial<R>(configured, n), es)
    ensures |es| <= 2 * n + Workers(configured, n) + 1
    ensures (forall e :: !Enabled(Final(Initial<R>(configured, n), es), e)) ==> Done(Final(Initial<R>(configured, n), es))
  {
    var s := Initial<R>(configured, n);
    RunInv(s, es);
    StepsCounted(s, es);
    AllWaiting(s.workers);
    if !Done(Final(s, es)) {
      var e := Progress(Final(s, es), r);
    }
  }

  lemma {:induction false} AllWaiting(ws: seq<Worker>)
    requires forall w | 0 <= w < |ws| :: ws[w] == Waiting
    ensures Sum(ws) == |ws|
    decreases |ws|
  {
    if ws != [] { AllWaiting(ws[..|ws|-1]); }
  }
}
