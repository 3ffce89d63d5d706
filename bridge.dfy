/** The bridge as the generated code runs it: an `Env` whose pending-exit
    fields and call log change primitive by primitive, and the process-wide
    state the init function writes. Every method is proved to end in the
    state, with the result, that the functional model prescribes. */
module Bridge {
  import opened Values
  import opened Runtime
  import opened Exits
  import opened Functions
  import opened Subrs
  import opened ModuleInit

  /** The module environment: the runtime's pending exit (`status`, `sym`,
      `data`), the primitives invoked so far, the next handle the runtime
      hands out, and the fixed function table and behaviour. */
  class Env {
    var status: int
    var sym: Handle
    var data: Handle
    var log: seq<Call>
    var next: Handle
    const table: map<Slot, FnPtr>
    const raises: map<Call, Pending>

    /** The environment as a value of the functional model. */
    function Snap(): Rt
      reads this
    {
      Rt(Pending(status, sym, data), log, next, table, raises)
    }

    constructor (rt: Rt)
      ensures Snap() == rt
    {
      status, sym, data := rt.exit.status, rt.exit.symbol, rt.exit.data;
      log, next := rt.log, rt.next;
      table, raises := rt.table, rt.raises;
    }

    /** Calls a present primitive. */
    method Invoke(c: Call) returns (h: Handle)
      modifies this
      ensures h == Runtime.Invoke(old(Snap()), c).0 && Snap() == Runtime.Invoke(old(Snap()), c).1
    {
      h := next;
      log := log + [c];
      next := next + 1;
      if c in raises {
        var p := raises[c];
        status, sym, data := p.status, p.symbol, p.data;
      }
    }

    method GetPending() returns (o: Outcome<Pending>)
      modifies this
      ensures o == Exits.GetPending(old(Snap())).out && Snap() == Exits.GetPending(old(Snap())).rt
    {
      match Critical(table, NonLocalExitGet)
      case Ok(_) =>
        o := Ok(Pending(status, sym, data));
        log := log + [GetExit];
      case _ =>
        o := Panicked(RequiredFunctionMissing(SlotName(NonLocalExitGet)));
    }

    method ClearPending() returns (o: Outcome<()>)
      modifies this
      ensures o == Exits.ClearPending(old(Snap())).out && Snap() == Exits.ClearPending(old(Snap())).rt
    {
      match Critical(table, NonLocalExitClear)
      case Ok(_) =>
        status := RETURN;
        log := log + [ClearExit];
        o := Ok(());
      case _ =>
        o := Panicked(RequiredFunctionMissing(SlotName(NonLocalExitClear)));
    }

    method SignalRaw(symbol: Handle, value: Handle) returns (o: Outcome<Handle>)
      modifies this
      ensures o == Exits.SignalRaw(old(Snap()), symbol, value).out
      ensures Snap() == Exits.SignalRaw(old(Snap()), symbol, value).rt
    {
      match Critical(table, NonLocalExitSignal)
      case Ok(_) =>
        status, sym, data := SIGNAL, symbol, value;
        log := log + [RaiseSignal(symbol, value)];
        o := Ok(symbol);
      case _ =>
        o := Panicked(RequiredFunctionMissing(SlotName(NonLocalExitSignal)));
    }

    method ThrowRaw(tag: Handle, value: Handle) returns (o: Outcome<Handle>)
      modifies this
      ensures o == Exits.ThrowRaw(old(Snap()), tag, value).out
      ensures Snap() == Exits.ThrowRaw(old(Snap()), tag, value).rt
    {
      match Critical(table, NonLocalExitThrow)
      case Ok(_) =>
        status, sym, data := THROW, tag, value;
        log := log + [RaiseThrow(tag, value)];
        o := Ok(tag);
      case _ =>
        o := Panicked(RequiredFunctionMissing(SlotName(NonLocalExitThrow)));
    }

    method HandleExit(result: Handle) returns (o: Outcome<Handle>)
      modifies this
      ensures o == Exits.HandleExit(old(Snap()), result).out
      ensures Snap() == Exits.HandleExit(old(Snap()), result).rt
    {
      var got := GetPending();
      if !got.Ok? {
        o := Propagate(got);
        return;
      }
      var p := got.value;
      if p.status == RETURN {
        o := Ok(result);
      } else if p.status == SIGNAL || p.status == THROW {
        var cleared := ClearPending();
        if cleared.Ok? {
          o := Err(if p.status == SIGNAL then Signal(p.symbol, p.data) else Throw(p.symbol, p.data));
        } else {
          o := Propagate(cleared);
        }
      } else {
        o := Panicked(UnexpectedExitStatus(p.status));
      }
    }

    method RawCall(c: Call) returns (o: Outcome<Handle>)
      modifies this
      ensures o == Exits.RawCall(old(Snap()), c).out && Snap() == Exits.RawCall(old(Snap()), c).rt
    {
      var f := RawFn(table, SlotOf(c));
      if !f.Ok? {
        o := Propagate(f);
        return;
      }
      var h := Invoke(c);
      o := HandleExit(h);
    }
  
    method SignalStr(symbol: string, message: string) returns (o: Outcome<Handle>)
      modifies this
      ensures o == Exits.SignalStr(old(Snap()), symbol, message).out
      ensures Snap() == Exits.SignalStr(old(Snap()), symbol, message).rt
    {
      var m := RawCall(NewString(message));
      if !m.Ok? {
        o := Propagate(m);
        return;
      }
      var d := RawCall(CallFunction("list", [m.value]));
      if !d.Ok? {
        o := Propagate(d);
        return;
      }
      var s := RawCall(InternSymbol(symbol));
      if !s.Ok? {
        o := Propagate(s);
        return;
      }
      o := SignalRaw(s.value, d.value);
    }

    method MaybeExit(result: Outcome<Handle>) returns (o: Outcome<Handle>)
      requires !result.Panicked?
      modifies this
      ensures o == Exits.MaybeExit(old(Snap()), result).out
      ensures Snap() == Exits.MaybeExit(old(Snap()), result).rt
    {
      match result
      case Ok(v) =>
        o := Ok(v);
      case Err(e) =>
        match e
        case Signal(s, d) =>
          o := SignalRaw(s, d);
        case Throw(t, v) =>
          o := ThrowRaw(t, v);
        case _ =>
          o := SignalStr(ErrorSymbol(e), Display(e));
          if o.Err? {
            o := Panicked(FailedToSignal(e));
          }
    }

    method HandlePanic(c: Caught) returns (o: Outcome<Handle>)
      modifies this
      ensures o == Exits.HandlePanic(old(Snap()), c).out
      ensures Snap() == Exits.HandlePanic(old(Snap()), c).rt
    {
      match c
      case Returned(v) =>
        o := Ok(v);
      case Unwound(p) =>
        o := SignalStr(PANIC, p);
        if o.Err? {
          o := Panicked(FailedToSignalPanic(p));
        }
    }

    method DefineError(name: string, message: string, parent: string) returns (o: Outcome<Handle>)
      modifies this
      ensures o == Exits.DefineError(old(Snap()), name, message, parent).out
      ensures Snap() == Exits.DefineError(old(Snap()), name, message, parent).rt
    {
      var n := RawCall(InternSymbol(name));
      if !n.Ok? {
        o := Propagate(n);
        return;
      }
      var m := RawCall(NewString(message));
      if !m.Ok? {
        o := Propagate(m);
        return;
      }
      var p := RawCall(InternSymbol(parent));
      if !p.Ok? {
        o := Propagate(p);
        return;
      }
      o := RawCall(CallFunction("define-error", [n.value, m.value, p.value]));
    }

    method DefineErrors() returns (o: Outcome<()>)
      modifies this
      ensures o == Exits.DefineErrors(old(Snap())).out && Snap() == Exits.DefineErrors(old(Snap())).rt
    {
      var a := DefineError(PANIC, "Rust panic", "error");
      if !a.Ok? {
        o := Propagate(a);
        return;
      }
      var b := DefineError(ERROR, "Rust error", "error");
      if !b.Ok? {
        o := Propagate(b);
        return;
      }
      var c := DefineError(WRONG_TYPE_USER_PTR, "Wrong type user-ptr", ERROR);
      if !c.Ok? {
        o := Propagate(c);
        return;
      }
      o := Ok(());
    }

    method MakeFunctionValue(subr: FnPtr, arities: Arities, doc: string, data: Handle) returns (o: Outcome<Handle>)
      modifies this
      ensures o == Functions.MakeFunctionValue(old(Snap()), subr, arities, doc, data).out
      ensures Snap() == Functions.MakeFunctionValue(old(Snap()), subr, arities, doc, data).rt
    {
      var f := RawFn(table, MakeFunction);
      if !f.Ok? {
        o := Propagate(f);
        return;
      }
      if '\0' in doc {
        o := Err(NulError);
        return;
      }
      o := RawCall(NewFunctionCall(subr, arities, doc, data));
    }

    method Fset(name: string, func: Handle) returns (o: Outcome<Handle>)
      modifies this
      ensures o == Functions.Fset(old(Snap()), name, func).out
      ensures Snap() == Functions.Fset(old(Snap()), name, func).rt
    {
      var s := RawCall(InternSymbol(name));
      if !s.Ok? {
        o := Propagate(s);
        return;
      }
      o := RawCall(CallFunction("fset", [s.value, func]));
    }

    method Register(name: string, subr: FnPtr, arities: Arities, doc: string, data: Handle) returns (o: Outcome<Handle>)
      modifies this
      ensures o == Functions.Register(old(Snap()), name, subr, arities, doc, data).out
      ensures Snap() == Functions.Register(old(Snap()), name, subr, arities, doc, data).rt
    {
      var f := MakeFunctionValue(subr, arities, doc, data);
      if !f.Ok? {
        o := Propagate(f);
        return;
      }
      o := Fset(name, f.value);
    }

    /** The registry loop: each initializer in order, returning at the first
        failure. */
    method RunAll(regs: seq<Registration>) returns (o: Outcome<()>)
      modifies this
      ensures o == ModuleInit.RunAll(old(Snap()), regs).out
      ensures Snap() == ModuleInit.RunAll(old(Snap()), regs).rt
    {
      ghost var rt0 := Snap();
      var i := 0;
      while i < |regs|
        invariant 0 <= i <= |regs|
        invariant ModuleInit.RunAll(rt0, regs[..i]) == Step(Ok(()), Snap())
      {
        ghost var before := Snap();
        var reg := regs[i];
        var r := Register(reg.lispName, reg.subr, reg.arities, reg.doc, reg.data);
        assert regs[..i + 1][..i] == regs[..i];
        assert ModuleInit.RunAll(rt0, regs[..i + 1]) == Then(Ok(()), before, reg);
        if !r.Ok? {
          o := Propagate(r);
          RunAllStopsAtFirstFailure(rt0, regs, i + 1);
          return;
        }
        i := i + 1;
      }
      assert regs[..i] == regs;
      o := Ok(());
    }

    method Provide(feature: string) returns (o: Outcome<Handle>)
      modifies this
      ensures o == ModuleInit.Provide(old(Snap()), feature).out
      ensures Snap() == ModuleInit.Provide(old(Snap()), feature).rt
    {
      var s := RawCall(InternSymbol(feature));
      if !s.Ok? {
        o := Propagate(s);
        return;
      }
      o := RawCall(CallFunction("provide", [s.value]));
    }

    /** What the init function does once the prefix is set: the
        initializers, the hook (whose outcome is `hook`), then `provide`. */
    method Load(regs: seq<Registration>, feature: string, hook: Outcome<()>) returns (o: Outcome<Handle>)
      modifies this
      ensures o == ModuleInit.Load(old(Snap()), regs, feature, hook).out
      ensures Snap() == ModuleInit.Load(old(Snap()), regs, feature, hook).rt
    {
      var r := RunAll(regs);
      if !r.Ok? {
        o := Propagate(r);
        return;
      }
      if !hook.Ok? {
        o := Propagate(hook);
        return;
      }
      o := Provide(feature);
    }

    /** Takes over the runtime as a handler left it. */
    method Resume(rt: Rt)
      requires rt.table == table && rt.raises == raises
      modifies this
      ensures Snap() == rt
    {
      status, sym, data := rt.exit.status, rt.exit.symbol, rt.exit.data;
      log, next := rt.log, rt.next;
    }

    /** A generated subroutine entered with `nargs` raw arguments, guarded
        by the panic trampoline. */
    method GuardedSubr(handler: Handler, args: array<Handle>, nargs: nat, data: Handle) returns (o: Outcome<Handle>)
      requires nargs <= args.Length
      modifies this
      ensures o == Subrs.GuardedSubr(old(Snap()), handler, args[..nargs], data).out
      ensures Snap() == Subrs.GuardedSubr(old(Snap()), handler, args[..nargs], data).rt
    {
      var vals := ArgsToValues(args, nargs);
      assert vals == ToValues(args[..nargs]);
      var ran := handler(Snap(), vals, data);
      Resume(ran.rt);
      var out := ran.out;
      if !out.Panicked? {
        out := MaybeExit(out);
      }
      var caught := if out.Panicked? then Unwound(Describe(out.cause)) else Returned(out.value);
      o := HandlePanic(caught);
    }
  }

  /** The process-wide state of a loaded module. */
  class Registry {
    var prefix: seq<string>
    var prefixLocked: bool
    var modInName: bool
    var initFnsLocked: bool
    var initFns: seq<Registration>

    function Snap(): Globals
      reads this
    {
      Globals(prefix, prefixLocked, modInName, initFnsLocked, initFns)
    }

    constructor (g: Globals)
      ensures Snap() == g
    {
      prefix, prefixLocked, modInName := g.prefix, g.prefixLocked, g.modInName;
      initFnsLocked, initFns := g.initFnsLocked, g.initFns;
    }

    /** The init function: compute the feature, write the prefix under its
        lock, store the flag, then load: the initializers under the
        registry's lock, then the hook, then `provide`. */
    method Init(env: Env, opts: ModuleOpts, crateFeature: string, fnFeature: string, hook: Outcome<()>)
      returns (o: Outcome<Handle>)
      modifies this, env
      ensures var r := ModuleInit.Init(old(env.Snap()), old(Snap()), opts, crateFeature, fnFeature, hook);
        o == r.out && env.Snap() == r.rt && Snap() == r.globals
    {
      var feature := Feature(opts.name, crateFeature, fnFeature);
      if prefixLocked {
        o := Panicked(PrefixLockHeld);
        return;
      }
      prefix := [feature, opts.separator];
      modInName := opts.modInName;
      if initFnsLocked {
        o := Panicked(InitializersLockHeld);
        return;
      }
      o := env.Load(initFns, feature, hook);
    }
  }
}
