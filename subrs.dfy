/** The calling convention of a generated subroutine (`emacs_subrs!`): the
    raw argument vector becomes a slice of values, the handler runs, and its
    result leaves through `maybe_exit`. */
module Subrs {
  import opened Values
  import opened Runtime
  import opened Exits

  /** A Lisp value as the handler receives it. */
  datatype Value = Value(raw: Handle)

  /** A Rust handler: given the environment as the subroutine entered it,
      the values and the data pointer, it returns its result and the
      runtime as it leaves it. A handler reaches the runtime only through
      the environment's calls, so it can only extend it. */
  type Handler = f: (Rt, seq<Value>, Handle) -> Step<Handle>
    | forall rt: Rt, vals: seq<Value>, data: Handle :: Extends(rt, f(rt, vals, data).rt)
    witness Idle

  /** The handler that calls nothing and returns its data pointer. */
  function Idle(rt: Rt, vals: seq<Value>, data: Handle): Step<Handle>
  {
    Step(Ok(data), rt)
  }

  function ToValues(args: seq<Handle>): seq<Value>
  {
    seq(|args|, i requires 0 <= i < |args| => Value(args[i]))
  }

  /** `from_raw_parts(args, nargs)` followed by `.map(into).collect()`:
      every one of the first `nargs` raw arguments, in order. */
  method ArgsToValues(args: array<Handle>, nargs: nat) returns (vals: seq<Value>)
    requires nargs <= args.Length
    ensures |vals| == nargs
    ensures forall i :: 0 <= i < nargs ==> vals[i] == Value(args[i])
  {
    vals := [];
    var i := 0;
    while i < nargs
      invariant 0 <= i <= nargs
      invariant |vals| == i
      invariant forall k :: 0 <= k < i ==> vals[k] == Value(args[k])
    {
      vals := vals + [Value(args[i])];
      i := i + 1;
    }
  }

  /** A subroutine generated by `emacs_subrs!`, as written: the handler's
      result always goes through `maybe_exit`, on the runtime the handler
      left, but a panic in the handler is not caught and unwinds out of the
      `extern "C"` function. */
  function Subr(rt: Rt, handler: Handler, args: seq<Handle>, data: Handle): (r: Step<Handle>)
    ensures !r.out.Err? && Extends(rt, r.rt)
    ensures var ran := handler(rt, ToValues(args), data);
      ran.out.Panicked? ==> r == ran
    ensures var ran := handler(rt, ToValues(args), data);
      !ran.out.Panicked? ==> r == MaybeExit(ran.rt, ran.out)
  {
    var ran := handler(rt, ToValues(args), data);
    if ran.out.Panicked? then ran else MaybeExit(ran.rt, ran.out)
  }

  /** The subroutine with the panic trampoline around it: handler and
      `maybe_exit` run under `catch_unwind`, and `handle_panic` turns an
      unwind into a `rust-panic` signal. `maybe_exit` never returns an
      `Err`, so what reaches `handle_panic` is a value or an unwind. */
  function GuardedSubr(rt: Rt, handler: Handler, args: seq<Handle>, data: Handle): (r: Step<Handle>)
    ensures !r.out.Err? && Extends(rt, r.rt)
    ensures var ran := handler(rt, ToValues(args), data);
      ran.out.Panicked? ==> r == HandlePanic(ran.rt, Unwound(Describe(ran.out.cause)))
    ensures var ran := handler(rt, ToValues(args), data);
      !ran.out.Panicked? && !MaybeExit(ran.rt, ran.out).out.Panicked? ==> r == MaybeExit(ran.rt, ran.out)
  {
    var Step(o, rt1) := Subr(rt, handler, args, data);
    var caught := if o.Panicked? then Unwound(Describe(o.cause)) else Returned(o.value);
    HandlePanic(rt1, caught)
  }

  /** When the handler leaves the runtime healthy, the guarded subroutine
      always returns to its caller, and a handler's panic leaves a
      `rust-panic` signal pending whose datum is the list of the panic's
      description. */
  lemma {:induction false} GuardedSubrHealthy(rt: Rt, handler: Handler, args: seq<Handle>, data: Handle)
    requires Healthy(handler(rt, ToValues(args), data).rt)
    ensures GuardedSubr(rt, handler, args, data).out.Ok?
    ensures var ran := handler(rt, ToValues(args), data);
      ran.out.Panicked? ==>
        GuardedSubr(rt, handler, args, data).rt
        == ran.rt.(exit := Pending(SIGNAL, ran.rt.next + 2, ran.rt.next + 1),
                   log := ran.rt.log + SignalStrLog(PANIC, Describe(ran.out.cause), ran.rt.next),
                   next := ran.rt.next + 3)
  {
    var ran := handler(rt, ToValues(args), data);
    if ran.out.Panicked? {
      HandlePanicHealthy(ran.rt, Describe(ran.out.cause));
    } else if ran.out.Err? && !ran.out.error.Signal? && !ran.out.error.Throw? {
      MaybeExitHealthy(ran.rt, ran.out.error);
    }
  }

  /** A handler that panics whatever it is given, before calling anything. */
  function Panicking(rt: Rt, vals: seq<Value>, data: Handle): Step<Handle>
  {
    Step(Panicked(HandlerPanicked("explicit panic")), rt)
  }

  /** As written, a panicking handler's unwind leaves the subroutine; with
      the trampoline it becomes a pending `rust-panic` signal instead. */
  lemma {:induction false} PanicEscapesSubr(rt: Rt, args: seq<Handle>, data: Handle)
    requires Healthy(rt)
    ensures Subr(rt, Panicking, args, data).out == Panicked(HandlerPanicked("explicit panic"))
    ensures GuardedSubr(rt, Panicking, args, data).out.Ok?
    ensures GuardedSubr(rt, Panicking, args, data).rt.exit.status == SIGNAL
  {
    GuardedSubrHealthy(rt, Panicking, args, data);
  }
}
