/**
  Properties of the scheduler's sweep (src/poller.rs): it drains every
  task list whose tasks finish within a budget of polls, a blocking task
  has the scheduler to itself until it completes, and the task swapped into
  the slot of a completed non-blocking task waits for the next sweep.
 */
module Sweep {
  import opened Promises
  import opened Polling

  function Sum(b: seq<nat>): nat
  {
    if b == [] then 0 else Sum(b[..|b| - 1]) + b[|b| - 1]
  }

  lemma {:induction false} SumUpdate(b: seq<nat>, i: nat, x: nat)
    requires i < |b|
    ensures Sum(b[i := x]) + b[i] == Sum(b) + x
  {
    var n := |b| - 1;
    if i < n {
      assert b[i := x][..n] == b[..n][i := x];
      SumUpdate(b[..n], i, x);
    } else {
      assert b[i := x][..n] == b[..n];
    }
  }

  /** Swap-removal takes away exactly the removed element's share. */
  lemma SumSwapRemove(b: seq<nat>, i: nat)
    requires i < |b|
    ensures Sum(SwapRemove(b, i)) + b[i] == Sum(b)
  {
    var n := |b| - 1;
    var init := b[..n];
    assert Sum(b) == Sum(init) + b[n];
    if i < n {
      assert SwapRemove(b, i) == init[i := b[n]];
      SumUpdate(init, i, b[n]);
    } else {
      assert SwapRemove(b, i) == init;
    }
  }

  /**
    The task reaches a terminal state within `k` polls, and so, within the
    polls that remain, does every follow-up task its callbacks hand back:
    `k` bounds the polls of the task and of all its continuations together.
   */
  ghost predicate WithinPolls(t: Task, k: nat)
    decreases k
  {
    && k > 0
    && var (t', st) := t.Poll();
       if !st.IsDone() then WithinPolls(t', k - 1)
       else
         match t'.Spawned(st)
         case None => true
         case Some(u) => WithinPolls(u, k - 1)
  }

  /** `b` gives each task of `s` a budget of polls it finishes within. */
  ghost predicate Budgeted(s: seq<Task>, b: seq<nat>)
  {
    |b| == |s| && forall j :: 0 <= j < |s| ==> WithinPolls(s[j], b[j])
  }

  /** A budgeted task has a budget of at least one poll. */
  lemma BudgetPositive(s: seq<Task>, b: seq<nat>, i: nat)
    requires i < |s| && Budgeted(s, b)
    ensures b[i] > 0 && Sum(b) > 0
  {
    assert WithinPolls(s[i], b[i]);
    SumUpdate(b, i, 0);
  }

  /** A poll that leaves its task pending spends one unit of its budget. */
  lemma SpendOnPending(s: seq<Task>, i: nat, t: Task, st: PollState, b: seq<nat>) returns (b': seq<nat>)
    requires i < |s| && Budgeted(s, b) && (t, st) == s[i].Poll() && !st.IsDone()
    ensures Budgeted(s[i := t], b') && Sum(b') < Sum(b)
  {
    BudgetPositive(s, b, i);
    b' := b[i := b[i] - 1];
    SumUpdate(b, i, b[i] - 1);
    var s1 := s[i := t];
    forall j | 0 <= j < |s1|
      ensures WithinPolls(s1[j], b'[j])
    {
      if j != i {
        assert s1[j] == s[j];
      }
    }
  }

  /** Budgets follow their tasks through a swap-removal of slot `i`,
      whatever slot `i` held. */
  lemma BudgetedSwapRemove(s: seq<Task>, b: seq<nat>, i: nat, t: Task)
    requires i < |s| && Budgeted(s, b)
    ensures Budgeted(SwapRemove(s[i := t], i), SwapRemove(b, i))
  {
    var r, c := SwapRemove(s[i := t], i), SwapRemove(b, i);
    forall j | 0 <= j < |r|
      ensures WithinPolls(r[j], c[j])
    {
      var k := if j == i then |s| - 1 else j;
      assert r[j] == s[k] && c[j] == b[k];
    }
  }

  lemma BudgetedAppend(s: seq<Task>, b: seq<nat>, u: Task, k: nat)
    requires Budgeted(s, b) && WithinPolls(u, k)
    ensures Budgeted(s + [u], b + [k])
  {
  }

  /** A completion gives up the task's budget, less one poll, to the task
      its callback hands back, if any. */
  lemma SpendOnCompletion(s: seq<Task>, i: nat, t: Task, st: PollState, b: seq<nat>) returns (b': seq<nat>)
    requires i < |s| && Budgeted(s, b) && (t, st) == s[i].Poll() && st.IsDone()
    requires Complete(s[i := t], i, st).Resumed?
    ensures Budgeted(Complete(s[i := t], i, st).tasks, b') && Sum(b') < Sum(b)
  {
    BudgetPositive(s, b, i);
    var s1 := s[i := t];
    var rest := Complete(s1, i, st).tasks;
    var spawned := t.Spawned(st);
    var r := SwapRemove(b, i);
    SumSwapRemove(b, i);
    BudgetedSwapRemove(s, b, i, t);
    assert s1[i] == t;
    if spawned.Some? {
      assert WithinPolls(spawned.value, b[i] - 1) by {
        assert WithinPolls(s[i], b[i]);
      }
      b' := r + [b[i] - 1];
      assert b'[..|r|] == r;
      assert rest == SwapRemove(s1, i) + [spawned.value] by {
        assert rest == rest[..|s| - 1] + [rest[|s| - 1]];
      }
      BudgetedAppend(SwapRemove(s1, i), r, spawned.value, b[i] - 1);
    } else {
      b' := r;
      assert rest == SwapRemove(s1, i);
    }
  }

  /** Each poll spends at least one unit of the total budget. */
  lemma StepSpends(m: Machine, b: seq<nat>) returns (b': seq<nat>)
    requires m.inWait != [] && Budgeted(m.inWait, b)
    ensures Sum(b) > 0
    ensures Step(Live(m)).Crashed? || (Budgeted(Step(Live(m)).m.inWait, b') && Sum(b') < Sum(b))
  {
    var s, i := m.inWait, Focus(m);
    var (t, st) := s[i].Poll();
    StepAt(s, i, t, st);
    assert Step(Live(m)) == Step(Live(Machine(s, i)));
    BudgetPositive(s, b, i);
    if !st.IsDone() {
      b' := SpendOnPending(s, i, t, st, b);
    } else if Complete(s[i := t], i, st).Resumed? {
      b' := SpendOnCompletion(s, i, t, st, b);
    } else {
      b' := [];
    }
  }

  /**
    Termination under a budget: a scheduler whose tasks finish, with all
    their continuations, within a total of `Sum(b)` polls has halted after
    that many polls, with no task left unless a rejection went unhandled.
   */
  lemma {:induction false} Drains(c: Config, b: seq<nat>)
    requires c.Live? ==> Budgeted(c.m.inWait, b)
    ensures Halted(Steps(c, Sum(b)))
    decreases Sum(b)
  {
    if Halted(c) {
      StepsHalted(c, 0, Sum(b));
    } else {
      var b' := StepSpends(c.m, b);
      var d := Step(c);
      assert Steps(c, Sum(b)) == Steps(d, Sum(b) - 1);
      if d.Crashed? {
        StepsHalted(d, 0, Sum(b) - 1);
      } else {
        Drains(d, b');
        StepsHalted(d, Sum(b'), Sum(b) - 1);
      }
    }
  }

  /** `Run` given at least the total budget never runs out of polls: it
      either empties the task list or stops on an unhandled rejection. */
  lemma RunFinishes(s: seq<Task>, b: seq<nat>, fuel: nat)
    requires Budgeted(s, b) && Sum(b) <= fuel
    ensures Report(Steps(Start(s), fuel)).Idle? || Report(Steps(Start(s), fuel)).Panicked?
  {
    Drains(Start(s), b);
    StepsHalted(Start(s), Sum(b), fuel);
  }

  /** The task after `n` polls. */
  function PollN(t: Task, n: nat): (r: Task)
    ensures r.step == t.step && r.blocking == t.blocking
    ensures r.chain == t.chain && r.chainErr == t.chainErr
    decreases n
  {
    if n == 0 then t else PollN(t.Poll().0, n - 1)
  }

  /** The first `n` polls of `t` all leave it pending. */
  predicate PendingFor(t: Task, n: nat)
    decreases n
  {
    n == 0 || (!t.Poll().1.IsDone() && PendingFor(t.Poll().0, n - 1))
  }

  /**
    Blocking exclusivity: while a blocking task at the focused slot stays
    pending, every poll goes to it; no other task is polled or moved and
    the index stays on it.
   */
  lemma {:induction false} BlockingExclusive(s: seq<Task>, i: nat, n: nat)
    requires i < |s| && s[i].blocking && PendingFor(s[i], n)
    ensures Steps(Live(Machine(s, i)), n) == Live(Machine(s[i := PollN(s[i], n)], i))
    decreases n
  {
    if n > 0 {
      var (t, st) := s[i].Poll();
      StepAt(s, i, t, st);
      BlockingExclusive(s[i := t], i, n - 1);
      assert s[i := t][i := PollN(t, n - 1)] == s[i := PollN(s[i], n)];
    }
  }

  /**
    A blocking task that completes on its poll `n + 1` is then settled in
    place: the index is not advanced, so the task that the swap-removal
    moved into its slot (if any) is the next one examined.
   */
  lemma BlockingSettlesInPlace(s: seq<Task>, i: nat, n: nat)
    requires i < |s| && s[i].blocking && PendingFor(s[i], n)
    requires PollN(s[i], n).Poll().1.IsDone()
    ensures
      var (t, st) := PollN(s[i], n).Poll();
      Steps(Live(Machine(s, i)), n + 1) == Settle(s[i := t], i, st, i)
  {
    BlockingExclusive(s, i, n);
    StepsLast(Live(Machine(s, i)), n);
    var u := PollN(s[i], n);
    assert s[i := u][i] == u;
    assert s[i := u][i := u.Poll().0] == s[i := u.Poll().0];
  }

  /**
    After a non-blocking task completes at slot `i` that is not the last,
    the former last task sits in slot `i` while the index moves on to
    `i + 1`, or, when `i + 1` is past the end of the shrunken list, a new
    sweep starts at 0: it is not examined again in this sweep.
   */
  lemma SwappedInSkipped(s: seq<Task>, i: nat)
    requires i < |s| - 1 && !s[i].blocking && s[i].Poll().1.IsDone()
    ensures
      var d := Step(Live(Machine(s, i)));
      d.Live? ==> d.m.inWait[i] == s[|s| - 1] && d.m.idx == Wrap(i + 1, |d.m.inWait|)
  {
    var (t, st) := s[i].Poll();
    var s1 := s[i := t];
    StepAt(s, i, t, st);
    match Complete(s1, i, st)
    case Fatal(_) =>
    case Resumed(rest) =>
      assert rest[..|s| - 1] == SwapRemove(s1, i);
      assert rest[i] == SwapRemove(s1, i)[i] == s1[|s| - 1];
  }

  /** Example tasks: one that completes on its first poll, and one that
      counts its polls in its data and never completes. */
  const Finish: StepFn := (d: Option<Value>) => (d, Done(None))
  const Count: StepFn := (d: Option<Value>) => (Some(if d.Some? then d.value + 1 else 1), Pending)

  function CountingTask(n: Value): Task
  {
    Task(Count, Some(n), None, None, false)
  }

  /**
    The sweep over `[A, B, C]`, where A completes at once: C is swapped
    into slot 0 and left behind; B is polled next, and C only after the
    index wraps round, in the second sweep.
   */
  lemma ThreeTaskSweep()
    ensures
      var a := Task(Finish, None, None, None, false);
      var start := Start([a, CountingTask(0), CountingTask(10)]);
      && Steps(start, 1) == Live(Machine([CountingTask(10), CountingTask(0)], 1))
      && Steps(start, 2) == Live(Machine([CountingTask(10), CountingTask(1)], 0))
      && Steps(start, 3) == Live(Machine([CountingTask(11), CountingTask(1)], 1))
  {
    var a := Task(Finish, None, None, None, false);
    var b, c := CountingTask(0), CountingTask(10);
    var start := Start([a, b, c]);
    var s1 := Live(Machine([c, b], 1));
    var s2 := Live(Machine([c, CountingTask(1)], 0));
    var s3 := Live(Machine([CountingTask(11), CountingTask(1)], 1));
    assert a.Poll() == (a, Done(None));
    assert Complete([a, b, c], 0, Done(None)) == Resumed([c, b]);
    assert Step(start) == s1;
    assert b.Poll() == (CountingTask(1), Pending);
    assert Step(s1) == s2;
    assert c.Poll() == (CountingTask(11), Pending);
    assert Step(s2) == s3;
    StepsLast(start, 0);
    StepsLast(start, 1);
    StepsLast(start, 2);
  }
}
