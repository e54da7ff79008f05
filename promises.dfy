/**
  The promise contract (src/promises.rs): the tri-state outcome of a poll,
  the view the scheduler has of any boxed promise, the generic promise built
  from a step function and owned data, and an implementor that keeps every
  default of the trait.
 */
module Promises {

  datatype Option<T> = None | Some(value: T)

  /** Stands for the opaque `Box<dyn Any>` values passed between tasks. */
  type Value = int

  /** The optional payload a task completes with. */
  type Payload = Option<Value>

  /** Stands for the opaque `Box<dyn Error>` a task is rejected with. */
  type Error = string

  /** Outcome of one poll. */
  datatype PromiseState<T, E> = Pending | Rejected(err: E) | Done(val: T) {

    /** A state is terminal exactly when it is not `Pending`. */
    function IsDone(): (r: bool)
      ensures r <==> (Rejected? || Done?)
    {
      !Pending?
    }
  }

  type PollState = PromiseState<Payload, Error>

  /** The step a task runs on each poll: its owned data in, the updated data
      and the outcome of the poll out. */
  type StepFn = Option<Value> -> (Option<Value>, PollState)

  /** A completion callback: payload in, optional follow-up task out. */
  type Callback = Payload -> Option<Task>

  /** An error callback: error in, optional recovery task out. */
  type ErrCallback = Error -> Option<Task>

  /**
    A boxed promise as the scheduler sees it: the behaviour of its `poll`
    (a step over its owned data), what its `chain()` and `chain_err()`
    return, and what its `should_block()` reports.
   */
  datatype Task = Task(
    step: StepFn,
    data: Option<Value>,
    chain: Option<Callback>,
    chainErr: Option<ErrCallback>,
    blocking: bool)
  {
    /** One poll: the step sees the data left by the previous poll; the
        callback slots and the blocking flag are left alone. */
    function Poll(): (r: (Task, PollState))
      ensures r.0.step == step && r.0.chain == chain && r.0.chainErr == chainErr
      ensures r.0.blocking == blocking
      ensures (r.0.data, r.1) == step(data)
    {
      var (d, st) := step(data);
      (this.(data := d), st)
    }

    /** The task the scheduler is handed back when this task ends in `st`:
        the completion callback applied to the payload, the error callback
        applied to the error, or nothing. */
    function Spawned(st: PollState): (r: Option<Task>)
      ensures st.Pending? ==> r.None?
      ensures st.Done? && chain.None? ==> r.None?
      ensures st.Done? && chain.Some? ==> r == chain.value(st.val)
      ensures st.Rejected? && chainErr.None? ==> r.None?
      ensures st.Rejected? && chainErr.Some? ==> r == chainErr.value(st.err)
    {
      match st
      case Pending => None
      case Done(v) => if chain.Some? then chain.value(v) else None
      case Rejected(e) => if chainErr.Some? then chainErr.value(e) else None
    }
  }

  /** The trait's default `chain`: no completion callback. */
  function DefaultChain(): (r: Option<Callback>)
    ensures r.None?
  {
    None
  }

  /** The trait's default `chain_err`: no error callback. */
  function DefaultChainErr(): (r: Option<ErrCallback>)
    ensures r.None?
  {
    None
  }

  /** The trait's default `should_block`: never blocking. */
  function DefaultShouldBlock(): (r: bool)
    ensures !r
  {
    false
  }

  /**
    `GenericPromise`: a step function over owned data, one completion slot,
    one error slot and a blocking flag. It overrides `chain_err`,
    `should_block` and `block` but not `chain`, so the trait default applies
    to `chain`: what `then` stores is never handed to the scheduler.
   */
  class GenericPromise {
    var chain: Option<Callback>
    var error: Option<ErrCallback>
    const f: StepFn
    var blocking: bool
    var data: Option<Value>

    /** `promise(f, data)`: no callbacks, not blocking, the given data. */
    constructor (f: StepFn, data: Option<Value>)
      ensures chain.None? && error.None? && !blocking
      ensures this.f == f && this.data == data
      ensures ChainErr().None? && !ShouldBlock()
    {
      this.chain := None;
      this.error := None;
      this.f := f;
      this.blocking := false;
      this.data := data;
    }

    /** The most recently registered error callback, if any. */
    function ChainErr(): (r: Option<ErrCallback>)
      reads this
      ensures r == error
    {
      error
    }

    function ShouldBlock(): (r: bool)
      reads this
      ensures r == blocking
    {
      blocking
    }

    /** The task the scheduler owns once this promise is scheduled. */
    function Boxed(): (t: Task)
      reads this
      ensures t.step == f && t.data == data && t.blocking == ShouldBlock()
      ensures t.chain.None? && t.chainErr == ChainErr()
    {
      Task(f, data, DefaultChain(), ChainErr(), ShouldBlock())
    }

    /** Runs the step on the owned data, which keeps what the step left. */
    method Poll() returns (st: PollState)
      modifies this`data
      ensures (Boxed(), st) == old(Boxed()).Poll()
      ensures (data, st) == f(old(data))
    {
      var r := f(data);
      data := r.0;
      st := r.1;
    }

    /** Fills the completion slot, replacing any earlier callback; the
        scheduler's view of this promise does not change. */
    method Then(cb: Callback)
      modifies this`chain
      ensures chain == Some(cb)
      ensures Boxed().chain.None? && Boxed() == old(Boxed())
    {
      chain := Some(cb);
    }

    /** Fills the error slot, replacing any earlier callback. */
    method Catch(cb: ErrCallback)
      modifies this`error
      ensures error == Some(cb) && ChainErr() == Some(cb)
      ensures Boxed() == old(Boxed()).(chainErr := Some(cb))
    {
      error := Some(cb);
    }

    /** Turns blocking mode on; calling it again changes nothing. */
    method Block()
      modifies this`blocking
      ensures ShouldBlock()
      ensures Boxed() == old(Boxed()).(blocking := true)
      ensures old(blocking) ==> Boxed() == old(Boxed())
    {
      blocking := true;
    }
  }

  /**
    An implementor that overrides only `poll` (and the required `then`),
    keeping every other default of the trait: no completion callback, no
    error callback, never blocking, and `catch` and `block` do nothing.
   */
  class PlainPromise {
    const step: StepFn
    var data: Option<Value>

    constructor (step: StepFn, data: Option<Value>)
      ensures this.step == step && this.data == data
    {
      this.step := step;
      this.data := data;
    }

    function Boxed(): (t: Task)
      reads this
      ensures t.step == step && t.data == data
      ensures t.chain.None? && t.chainErr.None? && !t.blocking
    {
      Task(step, data, DefaultChain(), DefaultChainErr(), DefaultShouldBlock())
    }

    method Poll() returns (st: PollState)
      modifies this`data
      ensures (Boxed(), st) == old(Boxed()).Poll()
    {
      var r := step(data);
      data := r.0;
      st := r.1;
    }

    /** The default `catch` drops the callback. */
    method Catch(cb: ErrCallback)
      ensures Boxed() == old(Boxed()) && Boxed().chainErr.None?
    {
    }

    /** The default `block` does nothing, so the promise never blocks. */
    method Block()
      ensures Boxed() == old(Boxed()) && !Boxed().blocking
    {
    }
  }
}
