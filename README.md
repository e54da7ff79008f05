# promisrs scheduler model

promisrs is a small single-threaded promise runtime. A `Poller` owns a list
of boxed promises (`in_wait`). `run` sweeps that list by index, polling each
promise. A poll answers `Pending`, `Done(payload)` or `Rejected(error)`. A
promise that reaches a terminal state is swap-removed from the list. Its
completion callback (`chain`) or error callback (`chain_err`) may hand back
a follow-up promise, and that promise is appended. A rejection that no error
callback handles panics. A promise that asks to block (`should_block`) is
polled repeatedly, on its own, until it completes. The index does not
advance past it, so the promise swapped into its slot is examined next.

This project models:

- `Promises` (`promises.dfy`), the promise contract:
  - the tri-state `PromiseState` and `is_done`;
  - `Task`, the value the scheduler owns for each boxed promise: its step
    over owned data, what `chain()` and `chain_err()` return, and what
    `should_block()` reports;
  - `GenericPromise`, a class whose methods update its fields as
    `then`/`catch`/`block`/`poll` do;
  - `PlainPromise`, an implementor that keeps every default of the trait.

  `GenericPromise` stores the callback given to `then` in its `chain` field
  but does not override `chain()`, so the trait default `None` applies. The
  scheduler therefore never runs a `then` callback of a `GenericPromise`.
  The model keeps this behaviour: `GenericPromise.Then` leaves `Boxed()`
  unchanged.
- `Polling` (`poller.dfy`), the scheduler:
  - `Poller` is a class over `inWait: seq<Task>`. `HandleComplete` updates
    the list in place by swap, pop and push. The loops of `run` are the
    loops of `Run` (outer), `Pass` (one sweep) and `Await` (a blocking task).
  - Each poll of the sweep is specified as a transition `Step` of a
    `Machine` (task list plus sweep index).
  - `Run` is proved to perform exactly the polls that `Steps` predicts, and
    to report the outcome of that state.
- `Sweep` (`sweep.dfy`), properties of the sweep:
  - it halts on every task list whose tasks (with all their continuations)
    finish within a budget of polls: it empties the list, or panics on an
    unhandled rejection;
  - a blocking task gets every poll until it completes;
  - a blocking task is settled in place, so the task swapped into its slot
    comes next;
  - after a non-blocking completion, the task swapped into the slot is
    skipped until the next sweep;
  - a concrete three-task sweep.

`run` in the source loops until the list is empty. Here `Run(fuel)` stops
after `fuel` polls and reports `Idle`, `Panicked(err)` (the `panic!`) or
`OutOfFuel`.

## Model

| member | source | states |
|---|---|---|
| Promises.PromiseState.IsDone | src/promises.rs:10-14 | a state is terminal exactly when it is `Rejected` or `Done` |
| Promises.DefaultChain | src/promises.rs:24-26 | the trait default `chain` exposes no completion callback |
| Promises.DefaultChainErr | src/promises.rs:27-29 | the trait default `chain_err` exposes no error callback |
| Promises.DefaultShouldBlock | src/promises.rs:38-40 | the trait default `should_block` never blocks |
| Promises.Task.Poll | src/promises.rs:22 | a poll runs the step on the data left by the previous poll; callbacks and blocking flag are untouched |
| Promises.Task.Spawned | src/poller.rs:35-51 | the follow-up a terminal state yields: `chain` applied to the payload, `chain_err` to the error, none when the slot is empty or the state is pending |
| Promises.GenericPromise.constructor | src/promises.rs:52-64 | `promise(f, data)`: no callbacks, not blocking, the given closure and data |
| Promises.GenericPromise.ChainErr | src/promises.rs:75-77 | exposes the stored error callback |
| Promises.GenericPromise.ShouldBlock | src/promises.rs:78-80 | reports the blocking flag |
| Promises.GenericPromise.Boxed | src/promises.rs:45-51 | the scheduler's view: closure, data, the default `chain()` (no callback), the stored error callback, the blocking flag |
| Promises.GenericPromise.Poll | src/promises.rs:66-68 | runs the closure on the owned data; the new view is one `Task.Poll` of the old one |
| Promises.GenericPromise.Then | src/promises.rs:69-71 | stores the callback, replacing any earlier one, and leaves the scheduler's view unchanged |
| Promises.GenericPromise.Catch | src/promises.rs:72-74 | stores the error callback; the view changes only in `chainErr` |
| Promises.GenericPromise.Block | src/promises.rs:81-83 | turns blocking on; idempotent; nothing else changes |
| Promises.PlainPromise.constructor | src/promises.rs:20-44 | an implementor of the trait with its own step and data |
| Promises.PlainPromise.Boxed | src/promises.rs:20-44 | the view of a default implementor: no callbacks, not blocking |
| Promises.PlainPromise.Poll | src/promises.rs:22 | the new view is one `Task.Poll` of the old one |
| Promises.PlainPromise.Catch | src/promises.rs:32 | trait default: the callback is dropped, nothing changes |
| Promises.PlainPromise.Block | src/promises.rs:43 | trait default: nothing changes, the promise still does not block |
| Polling.SwapRemove | src/poller.rs:31-33 | one element fewer; other positions keep their element; the former last element lands at `i` |
| Polling.SwapRemovePermutes | src/poller.rs:31-33 | the removal takes out exactly the element at `i`, as a multiset |
| Polling.Complete | src/poller.rs:26-54 | fatal exactly for a rejection with no error callback, carrying its error; otherwise the swap-removed list, followed by the spawned task if any |
| Polling.CompleteConserves | src/poller.rs:31-45 | completion handling loses and duplicates no task: the completed one leaves, the spawned one joins |
| Polling.Wrap | src/poller.rs:56-58 | the sweep index stays if it is in range, and otherwise restarts at 0 |
| Polling.Focus | src/poller.rs:58 | the slot examined next is `idx` when it is in range, and 0 otherwise |
| Polling.Settle | src/poller.rs:66-73 | after a poll of slot `i`: a pending task leaves the list as it is; a completed one is handled as `Complete` says, crashing on an unhandled rejection; the index moves to `next`, or to 0 past the end |
| Polling.Step | src/poller.rs:58-73 | one iteration of the sweep: the task at the focused slot is polled and settled, with the index kept for a blocking task and advanced otherwise; a crashed or empty scheduler does not move |
| Polling.Steps | src/poller.rs:55-76 | the scheduler after `n` polls of `run` |
| Polling.StepPolicy | src/poller.rs:58-73 | a pending poll changes only the polled slot; only an unhandled rejection crashes; a blocking task keeps the index, any other advances it |
| Polling.StepsHalted | src/poller.rs:56 | once the list is empty or the loop has panicked, further polls change nothing |
| Polling.Report | src/poller.rs:55-76 | `Idle` exactly for an empty live list; `Panicked` exactly for a crash, with its error |
| Polling.Poller.constructor | src/poller.rs:11-15 | `Poller::new`: empty list, `done()` holds |
| Polling.Poller.Schedule | src/poller.rs:18-20 | appends the task and keeps the others in place |
| Polling.Poller.Done | src/poller.rs:22-24 | true exactly when no task is waiting |
| Polling.Poller.HandleComplete | src/poller.rs:26-54 | the new list is what `Complete` yields; an unhandled rejection comes back as a fault carrying its error |
| Polling.Poller.Await | src/poller.rs:61-66 | polls only the blocking task, until it is terminal or the budget is spent, performing exactly the predicted polls |
| Polling.Poller.PollAt | src/poller.rs:69 | one poll of a non-blocking task, matching one `Step` |
| Polling.Poller.Conclude | src/poller.rs:70-72 | settling a completion leaves the predicted state or ends in the predicted panic |
| Polling.Poller.Pass | src/poller.rs:57-74 | one sweep from index 0 to the end performs exactly the predicted polls and ends at index 0 |
| Polling.Poller.Run | src/poller.rs:55-76 | the result and final list are those of `Steps` after `fuel` polls; `Idle` leaves the list empty |
| Sweep.StepSpends | src/poller.rs:58-73 | each poll spends at least one unit of the total poll budget |
| Sweep.Drains | src/poller.rs:55-76 | a budgeted task list has halted after `Sum(b)` polls: the list is empty, or an unhandled rejection panicked |
| Sweep.RunFinishes | src/poller.rs:55-76 | `Run` given at least the total budget reports `Idle` or `Panicked`, never `OutOfFuel` |
| Sweep.PollN | src/poller.rs:62-65 | repeated polls keep the step, blocking flag and callbacks |
| Sweep.BlockingExclusive | src/poller.rs:61-65 | while a blocking task stays pending, every poll goes to it and no other task moves |
| Sweep.BlockingSettlesInPlace | src/poller.rs:61-67 | a blocking task that completes is settled without advancing the index |
| Sweep.SwappedInSkipped | src/poller.rs:69-73 | after a non-blocking completion at slot `i`, the former last task sits at `i`; the index moves to `i + 1`, or a new sweep starts at 0 when `i + 1` is past the end |
| Sweep.ThreeTaskSweep | src/poller.rs:55-76 | on `[A, B, C]` with A finishing at once, B is polled next and C only after the index wraps |

## Left out

- Timers (`src/timers.rs`): `Timeout` and `Interval` read the wall clock and compare `f32` seconds. They are instances of `PlainPromise` whose step depends on time. The clock is not modelled.
- `src/main.rs` is a demonstration program. It is not part of this model.
- `Box<dyn Any>` payloads and `Box<dyn Error>` errors are modelled as `int` and `string`. Downcasting is not modelled.
- The `panic!` message format is not modelled. A panic is the result `Panicked(err)`.
- Polling.Poller.Run: the source loops without bound. The model stops after `fuel` polls and reports `OutOfFuel`. Termination is proved only for task lists with a poll budget (`Sweep.Drains`).
- Promises.Task: `should_block()` is taken to be fixed for a task between polls. An implementor that changes it from inside `poll` or from shared state is not modelled.
- Promises.GenericPromise.Poll: the closure may return any new data. The source closure gets `Option<&mut dyn Any>`, so it can change the value inside `Some` but cannot turn `Some` into `None` or the reverse. The model is broader than the source here.
- State a closure captures beyond its owned data, such as `Rc<RefCell<_>>` shared between tasks, is not modelled.
- Promises.PlainPromise: `then` has no default in the trait, so each implementor defines its own. It is not modelled for this class.
