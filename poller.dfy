/**
  The cooperative scheduler (src/poller.rs). `Poller` owns the boxed tasks
  in `inWait` and sweeps them by index. Each poll of the sweep is specified
  by `Step`, a transition of a `Machine` (the task list and the sweep
  index); `Run` is proved to perform exactly the polls `Steps` predicts.
 */
module Polling {
  import opened Promises

  /** Swap the element at `i` with the last one, then drop the last: the
      removal `handle_complete` performs. */
  function SwapRemove<T>(s: seq<T>, i: nat): (r: seq<T>)
    requires i < |s|
    ensures |r| == |s| - 1
    ensures forall j :: 0 <= j < |r| && j != i ==> r[j] == s[j]
    ensures i < |r| ==> r[i] == s[|s| - 1]
  {
    var last := |s| - 1;
    if i == last then s[..last] else s[..i] + [s[last]] + s[i + 1..last]
  }

  /** Swap-removal takes away exactly the element at `i`: what is left is
      a permutation of the other elements. */
  lemma SwapRemovePermutes<T>(s: seq<T>, i: nat)
    requires i < |s|
    ensures multiset(SwapRemove(s, i)) + multiset{s[i]} == multiset(s)
  {
    var last := |s| - 1;
    if i == last {
      assert s == s[..last] + [s[last]];
    } else {
      assert s == s[..i] + [s[i]] + s[i + 1..last] + [s[last]];
      assert SwapRemove(s, i) == s[..i] + [s[last]] + s[i + 1..last];
    }
  }

  /** What completion handling leaves behind. */
  datatype Completion = Resumed(tasks: seq<Task>) | Fatal(err: Error)

  /**
    Completion handling for the terminal state `st` of the task at `i`:
    the task is swap-removed; a `Done` payload goes to the completion
    callback, an error to the error callback, and whatever task the callback
    returns is appended. A rejection with no error callback is fatal.
   */
  function Complete(s: seq<Task>, i: nat, st: PollState): (r: Completion)
    requires i < |s|
    ensures r.Fatal? <==> st.Rejected? && s[i].chainErr.None?
    ensures r.Fatal? ==> r.err == st.err
    ensures r.Resumed? ==>
      && |r.tasks| == (if s[i].Spawned(st).Some? then |s| else |s| - 1)
      && r.tasks[..|s| - 1] == SwapRemove(s, i)
      && (s[i].Spawned(st).Some? ==> r.tasks[|s| - 1] == s[i].Spawned(st).value)
  {
    var rest := SwapRemove(s, i);
    var promise := s[i];
    match st
    case Done(val) =>
      if promise.chain.Some? then
        match promise.chain.value(val)
        case Some(cb) => Resumed(rest + [cb])
        case None => Resumed(rest)
      else Resumed(rest)
    case Rejected(err) =>
      if promise.chainErr.Some? then
        match promise.chainErr.value(err)
        case Some(next) => Resumed(rest + [next])
        case None => Resumed(rest)
      else Fatal(err)
    case Pending => Resumed(rest)
  }

  /** Completion handling loses no task and duplicates none: the completed
      task leaves the list and the task its callback returns, if any, joins. */
  lemma CompleteConserves(s: seq<Task>, i: nat, st: PollState)
    requires i < |s| && Complete(s, i, st).Resumed?
    ensures
      var spawned := s[i].Spawned(st);
      multiset(Complete(s, i, st).tasks) + multiset{s[i]}
        == multiset(s) + (if spawned.Some? then multiset{spawned.value} else multiset{})
  {
    var r := Complete(s, i, st).tasks;
    SwapRemovePermutes(s, i);
    if s[i].Spawned(st).Some? {
      assert r == r[..|s| - 1] + [r[|s| - 1]];
    } else {
      assert r == r[..|s| - 1];
    }
  }

  /** The scheduler between two polls: its task list and its sweep index. */
  datatype Machine = Machine(inWait: seq<Task>, idx: nat)

  /** A running scheduler, or one stopped by an unhandled rejection. */
  datatype Config = Live(m: Machine) | Crashed(err: Error)

  /** Scheduler state before the first poll of `run`. */
  function Start(s: seq<Task>): Config
  {
    Live(Machine(s, 0))
  }

  /** The index the sweep moves to: past the end, a new sweep starts at 0. */
  function Wrap(next: nat, len: nat): (r: nat)
    ensures r < len || r == 0
    ensures next < len ==> r == next
    ensures next >= len ==> r == 0
  {
    if next < len then next else 0
  }

  /** The slot the next poll examines. */
  function Focus(m: Machine): (i: nat)
    ensures m.inWait != [] ==> i < |m.inWait|
    ensures m.idx < |m.inWait| ==> i == m.idx
    ensures m.idx >= |m.inWait| ==> i == 0
  {
    Wrap(m.idx, |m.inWait|)
  }

  /** The state after polling slot `i`, which returned `st`, with the sweep
      index moving to `next` (unless the task list has shrunk below it). */
  function Settle(s: seq<Task>, i: nat, st: PollState, next: nat): Config
    requires i < |s|
  {
    if !st.IsDone() then Live(Machine(s, Wrap(next, |s|)))
    else
      match Complete(s, i, st)
      case Fatal(e) => Crashed(e)
      case Resumed(rest) => Live(Machine(rest, Wrap(next, |rest|)))
  }

  /** How a completed poll settles: a crash on an unhandled rejection,
      otherwise the remaining tasks with the index normalised. */
  lemma SettleDone(s: seq<Task>, i: nat, st: PollState, next: nat)
    requires i < |s| && st.IsDone()
    ensures Complete(s, i, st).Fatal? ==> Settle(s, i, st, next) == Crashed(st.err)
    ensures Complete(s, i, st).Resumed? ==>
      var rest := Complete(s, i, st).tasks;
      Settle(s, i, st, next) == Live(Machine(rest, Wrap(next, |rest|)))
  {
  }

  /** Halted: crashed, or nothing left to poll. */
  predicate Halted(c: Config)
  {
    c.Crashed? || |c.m.inWait| == 0
  }

  /** One poll of the sweep: the focused task is polled and settled. */
  function Step(c: Config): Config
  {
    if Halted(c) then c
    else
      var s, i := c.m.inWait, Focus(c.m);
      var (t, st) := s[i].Poll();
      Settle(s[i := t], i, st, if s[i].blocking then i else i + 1)
  }

  /**
    What one poll does. Only the focused task is polled and, while it is
    pending, nothing else changes; a blocking task keeps the index (so it is
    polled again, or, once it has completed, the task swapped into its slot
    is examined next); after any other poll the index moves on by one,
    whether or not the task completed. Only an unhandled rejection crashes.
   */
  lemma StepPolicy(c: Config)
    requires !Halted(c)
    ensures
      var s, i := c.m.inWait, Focus(c.m);
      var (t, st) := s[i].Poll();
      var d := Step(c);
      && (!st.IsDone() ==> d.Live? && d.m.inWait == s[i := t])
      && (st.IsDone() ==> (d.Crashed? <==> st.Rejected? && s[i].chainErr.None?))
      && (d.Live? && s[i].blocking ==> d.m.idx == Wrap(i, |d.m.inWait|))
      && (d.Live? && !s[i].blocking ==> d.m.idx == Wrap(i + 1, |d.m.inWait|))
  {
  }

  /** The state after `n` polls. */
  function Steps(c: Config, n: nat): Config
    decreases n
  {
    if n == 0 then c else Steps(Step(c), n - 1)
  }

  /** The last of `n + 1` polls is a step from the state after `n` polls. */
  lemma {:induction false} StepsLast(c: Config, n: nat)
    ensures Steps(c, n + 1) == Step(Steps(c, n))
    decreases n
  {
    if n > 0 {
      StepsLast(Step(c), n - 1);
    }
  }

  /** A halted scheduler stays as it is. */
  lemma {:induction false} StepsHalted(c: Config, n: nat, m: nat)
    requires n <= m && Halted(Steps(c, n))
    ensures Steps(c, m) == Steps(c, n)
    decreases m - n
  {
    if n < m {
      StepsHalted(c, n, m - 1);
      StepsLast(c, m - 1);
    }
  }

  /** One poll of slot `idx` of a live scheduler, unfolded. */
  lemma StepAt(s: seq<Task>, idx: nat, t: Task, st: PollState)
    requires idx < |s| && (t, st) == s[idx].Poll()
    ensures Step(Live(Machine(s, idx))) == Settle(s[idx := t], idx, st, if s[idx].blocking then idx else idx + 1)
  {
  }

  /** After `n` polls had left slot `idx` focused, poll `n + 1` polls it. */
  lemma PollNext(start: Config, n: nat, s: seq<Task>, idx: nat, t: Task, st: PollState)
    requires Steps(start, n) == Live(Machine(s, idx))
    requires idx < |s| && (t, st) == s[idx].Poll()
    ensures Steps(start, n + 1) == Settle(s[idx := t], idx, st, if s[idx].blocking then idx else idx + 1)
  {
    StepsLast(start, n);
    StepAt(s, idx, t, st);
  }

  datatype RunResult = Idle | OutOfFuel | Panicked(err: Error)

  /** How a run of the scheduler that ended in `c` reports. */
  function Report(c: Config): (r: RunResult)
    ensures r.Idle? <==> c.Live? && c.m.inWait == []
    ensures r.Panicked? <==> c.Crashed?
    ensures r.Panicked? ==> r.err == c.err
  {
    if c.Crashed? then Panicked(c.err)
    else if |c.m.inWait| == 0 then Idle
    else OutOfFuel
  }

  class Poller {
    /** The tasks in execution. */
    var inWait: seq<Task>

    /** `Poller::new`: no task. */
    constructor ()
      ensures inWait == [] && Done()
    {
      inWait := [];
    }

    /** Takes ownership of `t` and appends it. */
    method Schedule(t: Task)
      modifies this
      ensures inWait == old(inWait) + [t]
      ensures |inWait| == |old(inWait)| + 1 && inWait[|inWait| - 1] == t
      ensures forall j :: 0 <= j < |old(inWait)| ==> inWait[j] == old(inWait)[j]
    {
      inWait := inWait + [t];
    }

    function Done(): (r: bool)
      reads this
      ensures r <==> inWait == []
    {
      |inWait| == 0
    }

    /**
      Swap-removes the task at `idx` that ended in `state` and dispatches to
      its callbacks. An unhandled rejection comes back as the `fault` that
      the source escalates with a panic.
     */
    method HandleComplete(state: PollState, idx: nat) returns (fault: Option<Error>)
      requires idx < |inWait|
      modifies this
      ensures fault.None? <==> Complete(old(inWait), idx, state).Resumed?
      ensures fault.None? ==> inWait == Complete(old(inWait), idx, state).tasks
      ensures fault.Some? ==> fault.value == state.err && inWait == SwapRemove(old(inWait), idx)
    {
      var last := |inWait| - 1;
      inWait := inWait[idx := inWait[last]][last := inWait[idx]];
      var promise := inWait[last];
      inWait := inWait[..last];
      assert inWait == SwapRemove(old(inWait), idx);
      match state {
        case Done(val) =>
          if promise.chain.Some? {
            var next := promise.chain.value(val);
            if next.Some? {
              inWait := inWait + [next.value];
            }
          }
        case Rejected(err) =>
          if promise.chainErr.Some? {
            var next := promise.chainErr.value(err);
            if next.Some? {
              inWait := inWait + [next.value];
            }
          } else {
            return Some(err);
          }
        case Pending =>
      }
      return None;
    }

    /**
      The blocking branch of the sweep: polls the task at `idx`, and no other,
      until it reaches a terminal state or the budget of polls is spent.
     */
    method Await(idx: nat, ghost start: Config, polls0: nat, fuel: nat) returns (st: PollState, polls: nat)
      requires idx < |inWait| && inWait[idx].blocking && polls0 < fuel
      requires Steps(start, polls0) == Live(Machine(inWait, idx))
      modifies this
      ensures polls0 < polls <= fuel
      ensures |inWait| == |old(inWait)| && inWait[idx].blocking
      ensures forall j :: 0 <= j < |inWait| && j != idx ==> inWait[j] == old(inWait)[j]
      ensures Steps(start, polls) == Settle(inWait, idx, st, idx)
      ensures !st.IsDone() ==> polls == fuel && Steps(start, fuel) == Live(Machine(inWait, idx))
    {
      var (t, st') := inWait[idx].Poll();
      PollNext(start, polls0, inWait, idx, t, st');
      st := st';
      inWait := inWait[idx := t];
      polls := polls0 + 1;
      while !st.IsDone() && polls < fuel
        invariant idx < |inWait| && inWait[idx] == t && t.blocking
        invariant |inWait| == |old(inWait)|
        invariant forall j :: 0 <= j < |inWait| && j != idx ==> inWait[j] == old(inWait)[j]
        invariant polls0 < polls <= fuel
        invariant Steps(start, polls) == Settle(inWait, idx, st, idx)
        decreases fuel - polls
      {
        assert Steps(start, polls) == Live(Machine(inWait, idx));
        var (t', st'') := t.Poll();
        PollNext(start, polls, inWait, idx, t', st'');
        t, st := t', st'';
        inWait := inWait[idx := t];
        polls := polls + 1;
      }
    }

    /** Polls the non-blocking task at `idx` once, keeping what its step
        left in place. */
    method PollAt(idx: nat, ghost start: Config, polls0: nat) returns (st: PollState)
      requires idx < |inWait| && !inWait[idx].blocking
      requires Steps(start, polls0) == Live(Machine(inWait, idx))
      modifies this
      ensures |inWait| == |old(inWait)|
      ensures forall j :: 0 <= j < |inWait| && j != idx ==> inWait[j] == old(inWait)[j]
      ensures (inWait[idx], st) == old(inWait)[idx].Poll()
      ensures Steps(start, polls0 + 1) == Settle(inWait, idx, st, idx + 1)
      ensures !st.IsDone() ==> Steps(start, polls0 + 1) == Live(Machine(inWait, Wrap(idx + 1, |inWait|)))
    {
      var (t, st') := inWait[idx].Poll();
      PollNext(start, polls0, inWait, idx, t, st');
      inWait := inWait[idx := t];
      st := st';
    }

    /** Settles the task at `idx` that completed with `st` after `polls`
        polls: the event loop carries on, or panics with the error. */
    method Conclude(idx: nat, st: PollState, next: nat, fuel: nat, ghost start: Config, polls: nat)
      returns (stop: Option<RunResult>)
      requires idx < |inWait| && st.IsDone() && polls <= fuel
      requires Steps(start, polls) == Settle(inWait, idx, st, next)
      modifies this
      ensures stop.None? ==> Steps(start, polls) == Live(Machine(inWait, Wrap(next, |inWait|)))
      ensures stop.Some? ==> stop.value.Panicked? && stop.value == Report(Steps(start, fuel))
    {
      ghost var polled := inWait;
      SettleDone(polled, idx, st, next);
      var fault := HandleComplete(st, idx);
      if fault.Some? {
        assert Steps(start, polls) == Crashed(st.err);
        StepsHalted(start, polls, fuel);
        return Some(Panicked(fault.value));
      }
      assert inWait == Complete(polled, idx, st).tasks;
      return None;
    }

    /**
      One sweep over the queue, from index 0 to its end, within a budget of
      `fuel` polls in all. `stop` is `None` when the sweep reached the end of
      the queue after at least one poll; otherwise it is what the event loop
      reports: the error of an unhandled rejection, or `OutOfFuel`.
     */
    method Pass(fuel: nat, ghost start: Config, polls0: nat) returns (stop: Option<RunResult>, polls: nat)
      requires polls0 <= fuel && inWait != []
      requires Steps(start, polls0) == Live(Machine(inWait, 0))
      modifies this
      ensures polls0 <= polls <= fuel
      ensures stop.None? ==> polls > polls0 && Steps(start, polls) == Live(Machine(inWait, 0))
      ensures stop.Some? ==> stop.value == Report(Steps(start, fuel)) && !stop.value.Idle?
      ensures stop.Some? && !stop.value.Panicked? ==> inWait == Steps(start, fuel).m.inWait
    {
      var idx := 0;
      polls := polls0;
      while idx < |inWait|
        invariant polls0 <= polls <= fuel
        invariant Steps(start, polls) == Live(Machine(inWait, Wrap(idx, |inWait|)))
        invariant polls > polls0 || (idx == 0 && |inWait| > 0)
        decreases fuel - polls
      {
        if polls == fuel {
          assert Steps(start, fuel) == Live(Machine(inWait, idx));
          return Some(OutOfFuel), polls;
        }
        var st;
        var next := idx;
        if inWait[idx].blocking {
          st, polls := Await(idx, start, polls, fuel);
          if !st.IsDone() {
            return Some(OutOfFuel), polls;
          }
        } else {
          next := idx + 1;
          st := PollAt(idx, start, polls);
          polls := polls + 1;
        }
        if st.IsDone() {
          stop := Conclude(idx, st, next, fuel, start, polls);
          if stop.Some? {
            return;
          }
        }
        idx := next;
      }
      return None, polls;
    }

    /**
      The event loop, given a budget of `fuel` polls. It sweeps the tasks
      until none is left, stops with the error of an unhandled rejection,
      or reports `OutOfFuel` once the budget is spent.
     */
    method Run(fuel: nat) returns (r: RunResult)
      modifies this
      ensures r == Report(Steps(Start(old(inWait)), fuel))
      ensures !r.Panicked? ==> inWait == Steps(Start(old(inWait)), fuel).m.inWait
      ensures r.Idle? ==> inWait == []
    {
      ghost var start := Start(inWait);
      var polls := 0;
      while !Done()
        invariant polls <= fuel
        invariant Steps(start, polls) == Live(Machine(inWait, 0))
        decreases fuel - polls
      {
        var stop;
        stop, polls := Pass(fuel, start, polls);
        if stop.Some? {
          return stop.value;
        }
      }
      StepsHalted(start, polls, fuel);
      assert Steps(start, fuel) == Live(Machine([], 0));
      return Idle;
    }
  }
}
