/** The non-local-exit protocol between Rust and the module ABI: reading and
    clearing a pending exit after a call into Lisp (`handle_exit`), the
    generic call wrapper (`raw_call!`), and the way back, turning a Rust
    result into a return value or a re-raised exit (`maybe_exit`,
    `handle_panic`). */
module Exits {
  import opened Values
  import opened Runtime

  /** `non_local_exit_get`: reads the pending exit; a missing slot is fatal. */
  function GetPending(rt: Rt): (r: Step<Pending>)
    ensures !r.out.Err? && Extends(rt, r.rt) && r.rt.exit == rt.exit
    ensures NonLocalExitGet in rt.table ==> r.out == Ok(rt.exit) && r.rt == rt.(log := rt.log + [GetExit])
    ensures NonLocalExitGet !in rt.table ==>
      r.out == Panicked(RequiredFunctionMissing("non_local_exit_get")) && r.rt == rt
  {
    match Critical(rt.table, NonLocalExitGet)
    case Ok(_) => Step(Ok(rt.exit), rt.(log := rt.log + [GetExit]))
    case _ => Step(Panicked(RequiredFunctionMissing(SlotName(NonLocalExitGet))), rt)
  }

  /** `non_local_exit_clear`: nothing is pending afterwards; a missing slot is fatal. */
  function ClearPending(rt: Rt): (r: Step<()>)
    ensures !r.out.Err? && Extends(rt, r.rt)
    ensures NonLocalExitClear in rt.table ==>
      r.out == Ok(()) && r.rt == rt.(exit := rt.exit.(status := RETURN), log := rt.log + [ClearExit])
    ensures NonLocalExitClear !in rt.table ==>
      r.out == Panicked(RequiredFunctionMissing("non_local_exit_clear")) && r.rt == rt
  {
    match Critical(rt.table, NonLocalExitClear)
    case Ok(_) => Step(Ok(()), rt.(exit := rt.exit.(status := RETURN), log := rt.log + [ClearExit]))
    case _ => Step(Panicked(RequiredFunctionMissing(SlotName(NonLocalExitClear))), rt)
  }

  /** `signal`: raises a signal with exactly the given handles and returns the symbol. */
  function SignalRaw(rt: Rt, symbol: Handle, data: Handle): (r: Step<Handle>)
    ensures !r.out.Err? && Extends(rt, r.rt)
    ensures NonLocalExitSignal in rt.table ==>
      && r.out == Ok(symbol)
      && r.rt == rt.(exit := Pending(SIGNAL, symbol, data), log := rt.log + [RaiseSignal(symbol, data)])
    ensures NonLocalExitSignal !in rt.table ==>
      r.out == Panicked(RequiredFunctionMissing("non_local_exit_signal")) && r.rt == rt
  {
    match Critical(rt.table, NonLocalExitSignal)
    case Ok(_) => Step(Ok(symbol), rt.(exit := Pending(SIGNAL, symbol, data), log := rt.log + [RaiseSignal(symbol, data)]))
    case _ => Step(Panicked(RequiredFunctionMissing(SlotName(NonLocalExitSignal))), rt)
  }

  /** `throw`: throws exactly the given tag and value and returns the tag. */
  function ThrowRaw(rt: Rt, tag: Handle, value: Handle): (r: Step<Handle>)
    ensures !r.out.Err? && Extends(rt, r.rt)
    ensures NonLocalExitThrow in rt.table ==>
      && r.out == Ok(tag)
      && r.rt == rt.(exit := Pending(THROW, tag, value), log := rt.log + [RaiseThrow(tag, value)])
    ensures NonLocalExitThrow !in rt.table ==>
      r.out == Panicked(RequiredFunctionMissing("non_local_exit_throw")) && r.rt == rt
  {
    match Critical(rt.table, NonLocalExitThrow)
    case Ok(_) => Step(Ok(tag), rt.(exit := Pending(THROW, tag, value), log := rt.log + [RaiseThrow(tag, value)]))
    case _ => Step(Panicked(RequiredFunctionMissing(SlotName(NonLocalExitThrow))), rt)
  }

  /** `handle_exit`: after a call into Lisp, keeps its result on a normal
      return, captures and clears a signal or throw, and panics on any other
      completion code. */
  function HandleExit(rt: Rt, result: Handle): (r: Step<Handle>)
    ensures Extends(rt, r.rt) && rt.next == r.rt.next
    ensures r.out.Err? ==> r.out.error.Signal? || r.out.error.Throw?
    ensures !r.out.Panicked? ==> r.rt.exit.status == RETURN
    ensures NonLocalExitGet !in rt.table ==>
      r.out == Panicked(RequiredFunctionMissing("non_local_exit_get")) && r.rt == rt
    ensures NonLocalExitGet in rt.table && rt.exit.status == RETURN ==>
      r.out == Ok(result) && r.rt == rt.(log := rt.log + [GetExit])
    ensures NonLocalExitGet in rt.table && NonLocalExitClear in rt.table && rt.exit.status == SIGNAL ==>
      && r.out == Err(Signal(rt.exit.symbol, rt.exit.data))
      && r.rt == rt.(exit := rt.exit.(status := RETURN), log := rt.log + [GetExit, ClearExit])
    ensures NonLocalExitGet in rt.table && NonLocalExitClear in rt.table && rt.exit.status == THROW ==>
      && r.out == Err(Throw(rt.exit.symbol, rt.exit.data))
      && r.rt == rt.(exit := rt.exit.(status := RETURN), log := rt.log + [GetExit, ClearExit])
    ensures NonLocalExitGet in rt.table && rt.exit.status !in {RETURN, SIGNAL, THROW} ==>
      r.out == Panicked(UnexpectedExitStatus(rt.exit.status)) && r.rt == rt.(log := rt.log + [GetExit])
  {
    var Step(got, rt1) := GetPending(rt);
    match got
    case Ok(p) =>
      if p.status == RETURN then Step(Ok(result), rt1)
      else if p.status == SIGNAL || p.status == THROW then
        var Step(cleared, rt2) := ClearPending(rt1);
        assert rt.log + [GetExit] + [ClearExit] == rt.log + [GetExit, ClearExit];
        if cleared.Ok? then
          Step(Err(if p.status == SIGNAL then Signal(p.symbol, p.data) else Throw(p.symbol, p.data)), rt2)
        else Step(Propagate(cleared), rt2)
      else Step(Panicked(UnexpectedExitStatus(p.status)), rt1)
    case Err(e) => Step(Err(e), rt1)
    case Panicked(f) => Step(Panicked(f), rt1)
  }

  /** `raw_call!`: looks the slot up, invokes it, and routes the result
      through `handle_exit`. */
  function RawCall(rt: Rt, c: Call): (r: Step<Handle>)
    ensures Extends(rt, r.rt)
    ensures r.out.Err? ==> r.out.error.CoreFnMissing? || r.out.error.Signal? || r.out.error.Throw?
    ensures SlotOf(c) !in rt.table ==> r.out == Err(CoreFnMissing(SlotName(SlotOf(c)))) && r.rt == rt
    ensures SlotOf(c) in rt.table && NonLocalExitGet in rt.table && c !in rt.raises && rt.exit.status == RETURN ==>
      r.out == Ok(rt.next) && r.rt == rt.(log := rt.log + [c, GetExit], next := rt.next + 1)
    ensures SlotOf(c) in rt.table && NonLocalExitGet in rt.table && NonLocalExitClear in rt.table
            && c in rt.raises && rt.raises[c].status == SIGNAL ==>
      && r.out == Err(Signal(rt.raises[c].symbol, rt.raises[c].data))
      && r.rt == rt.(exit := rt.raises[c].(status := RETURN), log := rt.log + [c, GetExit, ClearExit], next := rt.next + 1)
    ensures SlotOf(c) in rt.table && NonLocalExitGet in rt.table && NonLocalExitClear in rt.table
            && c in rt.raises && rt.raises[c].status == THROW ==>
      && r.out == Err(Throw(rt.raises[c].symbol, rt.raises[c].data))
      && r.rt == rt.(exit := rt.raises[c].(status := RETURN), log := rt.log + [c, GetExit, ClearExit], next := rt.next + 1)
    ensures Healthy(rt) ==>
      r.out == Ok(rt.next) && r.rt == rt.(log := rt.log + [c, GetExit], next := rt.next + 1)
  {
    match RawFn(rt.table, SlotOf(c))
    case Ok(_) =>
      var (h, rt1) := Invoke(rt, c);
      assert rt.log + [c] + [GetExit] == rt.log + [c, GetExit];
      assert rt.log + [c] + [GetExit, ClearExit] == rt.log + [c, GetExit, ClearExit];
      HandleExit(rt1, h)
    case Err(e) => Step(Err(e), rt)
    case Panicked(f) => Step(Panicked(f), rt)
  }

  /** The primitives `signal_str` invokes in a healthy runtime, when the
      first of them returns handle `h`. */
  function SignalStrLog(symbol: string, message: string, h: Handle): seq<Call>
  {
    [NewString(message), GetExit, CallFunction("list", [h]), GetExit,
     InternSymbol(symbol), GetExit, RaiseSignal(h + 2, h + 1)]
  }

  /** `signal_str`: signals the interned `symbol` with the one-element list
      holding `message` as data. */
  function SignalStr(rt: Rt, symbol: string, message: string): (r: Step<Handle>)
    ensures Extends(rt, r.rt)
    ensures r.out.Ok? ==> r.rt.exit == Pending(SIGNAL, r.out.value, r.rt.exit.data)
    ensures r.out.Err? ==> r.out.error.CoreFnMissing? || r.out.error.Signal? || r.out.error.Throw?
  {
    var Step(m, rt1) := RawCall(rt, NewString(message));
    if !m.Ok? then Step(Propagate(m), rt1) else
    var Step(d, rt2) := RawCall(rt1, CallFunction("list", [m.value]));
    if !d.Ok? then Step(Propagate(d), rt2) else
    var Step(s, rt3) := RawCall(rt2, InternSymbol(symbol));
    if !s.Ok? then Step(Propagate(s), rt3) else
    SignalRaw(rt3, s.value, d.value)
  }

  /** Each step of `signal_str` is reached only when the steps before it
      succeeded, and the first step that fails gives the result. */
  lemma {:induction false} SignalStrStopsAtFirstFailure(rt: Rt, symbol: string, message: string)
    ensures var m := RawCall(rt, NewString(message));
      !m.out.Ok? ==> SignalStr(rt, symbol, message) == Step(Propagate(m.out), m.rt)
    ensures var m := RawCall(rt, NewString(message));
      m.out.Ok? ==>
        var d := RawCall(m.rt, CallFunction("list", [m.out.value]));
        !d.out.Ok? ==> SignalStr(rt, symbol, message) == Step(Propagate(d.out), d.rt)
    ensures var m := RawCall(rt, NewString(message));
      m.out.Ok? ==>
        var d := RawCall(m.rt, CallFunction("list", [m.out.value]));
        d.out.Ok? ==>
          var s := RawCall(d.rt, InternSymbol(symbol));
          && (!s.out.Ok? ==> SignalStr(rt, symbol, message) == Step(Propagate(s.out), s.rt))
          && (s.out.Ok? ==> SignalStr(rt, symbol, message) == SignalRaw(s.rt, s.out.value, d.out.value))
  {
  }

  /** In a healthy runtime `signal_str` leaves exactly a signal of the new
      symbol with the new list pending, after four primitives. */
  lemma {:induction false} SignalStrHealthy(rt: Rt, symbol: string, message: string)
    requires Healthy(rt)
    ensures SignalStr(rt, symbol, message).out == Ok(rt.next + 2)
    ensures SignalStr(rt, symbol, message).rt
         == rt.(exit := Pending(SIGNAL, rt.next + 2, rt.next + 1),
                log := rt.log + SignalStrLog(symbol, message, rt.next),
                next := rt.next + 3)
  {
    var rt1 := RawCall(rt, NewString(message)).rt;
    assert Healthy(rt1);
    var rt2 := RawCall(rt1, CallFunction("list", [rt.next])).rt;
    assert Healthy(rt2);
    var rt3 := RawCall(rt2, InternSymbol(symbol)).rt;
    assert Healthy(rt3);
    assert rt3.log + [RaiseSignal(rt.next + 2, rt.next + 1)] == rt.log + SignalStrLog(symbol, message, rt.next);
  }

  /** The bridge-owned error symbol a re-described error is signalled under. */
  function ErrorSymbol(e: Error): (r: string)
    ensures r == WRONG_TYPE_USER_PTR || r == ERROR
    ensures r == WRONG_TYPE_USER_PTR <==> e.WrongTypeUserPtr?
  {
    if e.WrongTypeUserPtr? then WRONG_TYPE_USER_PTR else ERROR
  }

  /** `.unwrap_or_else(|_| panic!(...))` after signalling `e`. */
  function OrDie(step: Step<Handle>, e: Error): (r: Step<Handle>)
    ensures !r.out.Err? && r.rt == step.rt
    ensures step.out.Err? ==> r.out == Panicked(FailedToSignal(e))
    ensures !step.out.Err? ==> r.out == step.out
  {
    if step.out.Err? then Step(Panicked(FailedToSignal(e)), step.rt) else step
  }

  /** `maybe_exit`: the value of `Ok` goes back unchanged; `Signal` and
      `Throw` are re-raised with the very same handles; every other error is
      signalled under `rust-wrong-type-user-ptr` or `rust-error` with its
      display text, and failing to signal it is fatal. */
  function MaybeExit(rt: Rt, result: Outcome<Handle>): (r: Step<Handle>)
    requires !result.Panicked?
    ensures !r.out.Err? && Extends(rt, r.rt)
    ensures result.Ok? ==> r.out == result && r.rt == rt
    ensures result.Err? && result.error.Signal? && NonLocalExitSignal in rt.table ==>
      var Signal(s, d) := result.error;
      r.out == Ok(s) && r.rt == rt.(exit := Pending(SIGNAL, s, d), log := rt.log + [RaiseSignal(s, d)])
    ensures result.Err? && result.error.Throw? && NonLocalExitThrow in rt.table ==>
      var Throw(t, v) := result.error;
      r.out == Ok(t) && r.rt == rt.(exit := Pending(THROW, t, v), log := rt.log + [RaiseThrow(t, v)])
    ensures result.Err? && !result.error.Signal? && !result.error.Throw? ==>
      var step := SignalStr(rt, ErrorSymbol(result.error), Display(result.error));
      && r.rt == step.rt
      && (step.out.Err? ==> r.out == Panicked(FailedToSignal(result.error)))
      && (!step.out.Err? ==> r.out == step.out)
  {
    match result
    case Ok(v) => Step(Ok(v), rt)
    case Err(e) =>
      match e
      case Signal(s, d) => SignalRaw(rt, s, d)
      case Throw(t, v) => ThrowRaw(rt, t, v)
      case _ => OrDie(SignalStr(rt, ErrorSymbol(e), Display(e)), e)
  }

  /** In a healthy runtime an error that is not a non-local exit is signalled
      under its symbol with its display text as the only datum. */
  lemma {:induction false} MaybeExitHealthy(rt: Rt, e: Error)
    requires Healthy(rt) && !e.Signal? && !e.Throw?
    ensures MaybeExit(rt, Err(e)).out == Ok(rt.next + 2)
    ensures MaybeExit(rt, Err(e)).rt.exit == Pending(SIGNAL, rt.next + 2, rt.next + 1)
    ensures MaybeExit(rt, Err(e)).rt.log == rt.log + SignalStrLog(ErrorSymbol(e), Display(e), rt.next)
  {
    SignalStrHealthy(rt, ErrorSymbol(e), Display(e));
  }

  /** The exit slots `handle_exit` and `maybe_exit` rely on are all present. */
  predicate ExitSlots(rt: Rt)
  {
    && NonLocalExitGet in rt.table && NonLocalExitClear in rt.table
    && NonLocalExitSignal in rt.table && NonLocalExitThrow in rt.table
  }

  /** A signal or throw that Lisp left pending, captured by `handle_exit`
      and handed back by `maybe_exit`, is pending again with the very same
      handles, and the value returned to Lisp is its symbol or tag. */
  lemma {:induction false} CapturedExitReRaised(rt: Rt, result: Handle)
    requires ExitSlots(rt) && (rt.exit.status == SIGNAL || rt.exit.status == THROW)
    ensures var captured := HandleExit(rt, result);
      && captured.out.Err?
      && MaybeExit(captured.rt, captured.out).out == Ok(rt.exit.symbol)
      && MaybeExit(captured.rt, captured.out).rt.exit == rt.exit
  {
  }

  /** The other way round: with no exit pending, a `Signal` or `Throw` error
      re-raised by `maybe_exit` is captured by the next `handle_exit` as the same error,
      and nothing is pending afterwards. */
  lemma {:induction false} ReRaisedExitCaptured(rt: Rt, e: Error, result: Handle)
    requires ExitSlots(rt) && rt.exit.status == RETURN && (e.Signal? || e.Throw?)
    ensures var raised := MaybeExit(rt, Err(e));
      && HandleExit(raised.rt, result).out == Err(e)
      && HandleExit(raised.rt, result).rt.exit.status == RETURN
  {
  }

  /** What `catch_unwind` hands to `handle_panic`: a returned value, or an
      unwind with its rendered payload. */
  datatype Caught = Returned(raw: Handle) | Unwound(payload: string)

  /** `handle_panic`: a returned value passes through; an unwind becomes a
      `rust-panic` signal carrying the rendered payload. */
  function HandlePanic(rt: Rt, c: Caught): (r: Step<Handle>)
    ensures !r.out.Err? && Extends(rt, r.rt)
    ensures c.Returned? ==> r.out == Ok(c.raw) && r.rt == rt
    ensures c.Unwound? && SignalStr(rt, PANIC, c.payload).out.Err? ==>
      r.out == Panicked(FailedToSignalPanic(c.payload))
    ensures c.Unwound? && !SignalStr(rt, PANIC, c.payload).out.Err? ==> r == SignalStr(rt, PANIC, c.payload)
  {
    match c
    case Returned(v) => Step(Ok(v), rt)
    case Unwound(p) =>
      var Step(o, rt1) := SignalStr(rt, PANIC, p);
      if o.Err? then Step(Panicked(FailedToSignalPanic(p)), rt1) else Step(o, rt1)
  }

  /** In a healthy runtime a caught panic becomes a pending `rust-panic`
      signal whose datum is the list of the rendered payload. */
  lemma {:induction false} HandlePanicHealthy(rt: Rt, payload: string)
    requires Healthy(rt)
    ensures HandlePanic(rt, Unwound(payload)).out == Ok(rt.next + 2)
    ensures HandlePanic(rt, Unwound(payload)).rt
         == rt.(exit := Pending(SIGNAL, rt.next + 2, rt.next + 1),
                log := rt.log + SignalStrLog(PANIC, payload, rt.next),
                next := rt.next + 3)
  {
    SignalStrHealthy(rt, PANIC, payload);
  }

  /** The primitives `define_error` invokes in a healthy runtime, when the
      first of them returns handle `h`. */
  function DefineErrorLog(name: string, message: string, parent: string, h: Handle): seq<Call>
  {
    [InternSymbol(name), GetExit, NewString(message), GetExit, InternSymbol(parent), GetExit,
     CallFunction("define-error", [h, h + 1, h + 2]), GetExit]
  }

  /** `define_error`: calls `define-error` with the interned name, the message
      and the interned parent, in that order. */
  function DefineError(rt: Rt, name: string, message: string, parent: string): (r: Step<Handle>)
    ensures Extends(rt, r.rt)
    ensures Intern !in rt.table ==> r.out == Err(CoreFnMissing("intern")) && r.rt == rt
  {
    var Step(n, rt1) := RawCall(rt, InternSymbol(name));
    if !n.Ok? then Step(Propagate(n), rt1) else
    var Step(m, rt2) := RawCall(rt1, NewString(message));
    if !m.Ok? then Step(Propagate(m), rt2) else
    var Step(p, rt3) := RawCall(rt2, InternSymbol(parent));
    if !p.Ok? then Step(Propagate(p), rt3) else
    RawCall(rt3, CallFunction("define-error", [n.value, m.value, p.value]))
  }

  /** Each step of `define_error` is reached only when the steps before it
      succeeded, and the first step that fails gives the result. */
  lemma {:induction false} DefineErrorStopsAtFirstFailure(rt: Rt, name: string, message: string, parent: string)
    ensures var n := RawCall(rt, InternSymbol(name));
      !n.out.Ok? ==> DefineError(rt, name, message, parent) == Step(Propagate(n.out), n.rt)
    ensures var n := RawCall(rt, InternSymbol(name));
      n.out.Ok? ==>
        var m := RawCall(n.rt, NewString(message));
        !m.out.Ok? ==> DefineError(rt, name, message, parent) == Step(Propagate(m.out), m.rt)
    ensures var n := RawCall(rt, InternSymbol(name));
      n.out.Ok? ==>
        var m := RawCall(n.rt, NewString(message));
        m.out.Ok? ==>
          var p := RawCall(m.rt, InternSymbol(parent));
          && (!p.out.Ok? ==> DefineError(rt, name, message, parent) == Step(Propagate(p.out), p.rt))
          && (p.out.Ok? ==> DefineError(rt, name, message, parent) == RawCall(p.rt, CallFunction("define-error", [n.out.value, m.out.value, p.out.value])))
  {
  }

  /** In a healthy runtime `define_error` succeeds after four primitives,
      handing `define-error` the three values it created, in order. */
  lemma {:induction false} DefineErrorHealthy(rt: Rt, name: string, message: string, parent: string)
    requires Healthy(rt)
    ensures DefineError(rt, name, message, parent).out == Ok(rt.next + 3)
    ensures DefineError(rt, name, message, parent).rt
         == rt.(log := rt.log + DefineErrorLog(name, message, parent, rt.next), next := rt.next + 4)
  {
    var rt1 := RawCall(rt, InternSymbol(name)).rt;
    assert Healthy(rt1);
    var rt2 := RawCall(rt1, NewString(message)).rt;
    assert Healthy(rt2);
    var rt3 := RawCall(rt2, InternSymbol(parent)).rt;
    assert Healthy(rt3);
    assert rt3.log + [CallFunction("define-error", [rt.next, rt.next + 1, rt.next + 2]), GetExit]
        == rt.log + DefineErrorLog(name, message, parent, rt.next);
  }

  /** `define_errors`: `rust-panic` and `rust-error` under `error`, then
      `rust-wrong-type-user-ptr` under `rust-error`; the first failure stops it. */
  function DefineErrors(rt: Rt): (r: Step<()>)
    ensures Extends(rt, r.rt)
    ensures var first := DefineError(rt, PANIC, "Rust panic", "error");
      !first.out.Ok? ==> r.out == Propagate(first.out) && r.rt == first.rt
  {
    var Step(a, rt1) := DefineError(rt, PANIC, "Rust panic", "error");
    if !a.Ok? then Step(Propagate(a), rt1) else
    var Step(b, rt2) := DefineError(rt1, ERROR, "Rust error", "error");
    if !b.Ok? then Step(Propagate(b), rt2) else
    var Step(c, rt3) := DefineError(rt2, WRONG_TYPE_USER_PTR, "Wrong type user-ptr", ERROR);
    if !c.Ok? then Step(Propagate(c), rt3) else
    Step(Ok(()), rt3)
  }

  /** After a first definition that succeeds, a failure of the second stops
      `define_errors` before the third, and otherwise the third's outcome
      decides it. */
  lemma {:induction false} DefineErrorsStopsAtFirstFailure(rt: Rt)
    ensures var first := DefineError(rt, PANIC, "Rust panic", "error");
      var second := DefineError(first.rt, ERROR, "Rust error", "error");
      first.out.Ok? && !second.out.Ok? ==>
        DefineErrors(rt).out == Propagate(second.out) && DefineErrors(rt).rt == second.rt
    ensures var first := DefineError(rt, PANIC, "Rust panic", "error");
      var second := DefineError(first.rt, ERROR, "Rust error", "error");
      var third := DefineError(second.rt, WRONG_TYPE_USER_PTR, "Wrong type user-ptr", ERROR);
      first.out.Ok? && second.out.Ok? ==>
        && DefineErrors(rt).rt == third.rt
        && (third.out.Ok? ==> DefineErrors(rt).out == Ok(()))
        && (!third.out.Ok? ==> DefineErrors(rt).out == Propagate(third.out))
  {
  }

  /** In a healthy runtime `define_errors` succeeds, defining the three
      error symbols in order with their parents. */
  lemma {:induction false} DefineErrorsHealthy(rt: Rt)
    requires Healthy(rt)
    ensures DefineErrors(rt).out == Ok(())
    ensures DefineErrors(rt).rt
         == rt.(log := rt.log + DefineErrorLog(PANIC, "Rust panic", "error", rt.next)
                              + DefineErrorLog(ERROR, "Rust error", "error", rt.next + 4)
                              + DefineErrorLog(WRONG_TYPE_USER_PTR, "Wrong type user-ptr", ERROR, rt.next + 8),
                next := rt.next + 12)
  {
    DefineErrorHealthy(rt, PANIC, "Rust panic", "error");
    var rt1 := DefineError(rt, PANIC, "Rust panic", "error").rt;
    assert Healthy(rt1);
    DefineErrorHealthy(rt1, ERROR, "Rust error", "error");
    var rt2 := DefineError(rt1, ERROR, "Rust error", "error").rt;
    assert Healthy(rt2);
    DefineErrorHealthy(rt2, WRONG_TYPE_USER_PTR, "Wrong type user-ptr", ERROR);
  }

  /** `emacs_module_init` and `emacs_rs_module_init`: the loader only sees
      0 for success and 1 for failure. */
  function EntryStatus<T>(o: Outcome<T>): (status: int)
    requires !o.Panicked?
    ensures status == 0 <==> o.Ok?
    ensures status == 1 <==> o.Err?
  {
    match o
    case Ok(_) => 0
    case Err(_) => 1
  }
}
