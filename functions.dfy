/** The function registrar: building a Lisp function object from a Rust
    subroutine and binding it to a symbol (`make_function`, `fset`,
    `register`). */
module Functions {
  import opened Values
  import opened Runtime
  import opened Exits

  /** `usize as isize` on a 64-bit target: the same 64 bits read as two's complement. */
  function AsIsize(n: Usize): (r: int)
    ensures -0x8000_0000_0000_0000 <= r < 0x8000_0000_0000_0000
    ensures (n - r) % 0x1_0000_0000_0000_0000 == 0
    ensures n < 0x8000_0000_0000_0000 ==> r == n
  {
    if n < 0x8000_0000_0000_0000 then n else n - 0x1_0000_0000_0000_0000
  }

  /** A `Range<usize>` of accepted argument counts. */
  datatype Arities = Arities(start: Usize, end: Usize)

  /** The primitive call `make_function` issues for a function with these attributes. */
  function NewFunctionCall(subr: FnPtr, arities: Arities, doc: string, data: Handle): Call
  {
    NewFunction(AsIsize(arities.start), AsIsize(arities.end), subr, doc, data)
  }

  /** `make_function`: the slot is looked up first, then the doc string is
      converted to a C string (an interior NUL fails before anything is
      called), then the primitive is called with `start` as minimum and
      `end` as maximum arity. */
  function MakeFunctionValue(rt: Rt, subr: FnPtr, arities: Arities, doc: string, data: Handle): (r: Step<Handle>)
    ensures Extends(rt, r.rt)
    ensures r.out.Err? ==> r.out.error in {CoreFnMissing("make_function"), NulError}
                           || r.out.error.Signal? || r.out.error.Throw?
    ensures MakeFunction !in rt.table ==> r.out == Err(CoreFnMissing("make_function")) && r.rt == rt
    ensures MakeFunction in rt.table && '\0' in doc ==> r.out == Err(NulError) && r.rt == rt
  {
    match RawFn(rt.table, MakeFunction)
    case Ok(_) =>
      if '\0' in doc then Step(Err(NulError), rt)
      else RawCall(rt, NewFunctionCall(subr, arities, doc, data))
    case Err(e) => Step(Err(e), rt)
    case Panicked(f) => Step(Panicked(f), rt)
  }

  /** In a healthy runtime a function with a NUL-free doc string is created
      by exactly one primitive call, carrying its arities, subroutine, doc
      string and data. */
  lemma {:induction false} MakeFunctionValueHealthy(rt: Rt, subr: FnPtr, arities: Arities, doc: string, data: Handle)
    requires Healthy(rt) && '\0' !in doc
    ensures MakeFunctionValue(rt, subr, arities, doc, data).out == Ok(rt.next)
    ensures MakeFunctionValue(rt, subr, arities, doc, data).rt
         == rt.(log := rt.log + [NewFunctionCall(subr, arities, doc, data), GetExit], next := rt.next + 1)
  {
  }

  /** `fset`: interns the name, then calls `fset` with exactly the symbol and
      the function, in that order. */
  function Fset(rt: Rt, name: string, func: Handle): (r: Step<Handle>)
    ensures Extends(rt, r.rt)
    ensures Intern !in rt.table ==> r.out == Err(CoreFnMissing("intern")) && r.rt == rt
  {
    var Step(sym, rt1) := RawCall(rt, InternSymbol(name));
    if !sym.Ok? then Step(Propagate(sym), rt1) else
    RawCall(rt1, CallFunction("fset", [sym.value, func]))
  }

  /** `fset` stops when interning the name fails; otherwise its result,
      including an exit the `fset` call raises, is that call's. */
  lemma {:induction false} FsetStopsAtFirstFailure(rt: Rt, name: string, func: Handle)
    ensures var sym := RawCall(rt, InternSymbol(name));
      !sym.out.Ok? ==> Fset(rt, name, func) == Step(Propagate(sym.out), sym.rt)
    ensures var sym := RawCall(rt, InternSymbol(name));
      sym.out.Ok? ==> Fset(rt, name, func) == RawCall(sym.rt, CallFunction("fset", [sym.out.value, func]))
  {
  }

  /** In a healthy runtime `fset` binds the freshly interned name to `func`. */
  lemma {:induction false} FsetHealthy(rt: Rt, name: string, func: Handle)
    requires Healthy(rt)
    ensures Fset(rt, name, func).out == Ok(rt.next + 1)
    ensures Fset(rt, name, func).rt
         == rt.(log := rt.log + [InternSymbol(name), GetExit, CallFunction("fset", [rt.next, func]), GetExit],
                next := rt.next + 2)
  {
    var rt1 := RawCall(rt, InternSymbol(name)).rt;
    assert Healthy(rt1);
    assert rt1.log + [CallFunction("fset", [rt.next, func]), GetExit]
        == rt.log + [InternSymbol(name), GetExit, CallFunction("fset", [rt.next, func]), GetExit];
  }

  /** The primitives `register` invokes in a healthy runtime, when the
      function object it creates is handle `h`. */
  function RegisterLog(name: string, subr: FnPtr, arities: Arities, doc: string, data: Handle, h: Handle): seq<Call>
  {
    [NewFunctionCall(subr, arities, doc, data), GetExit,
     InternSymbol(name), GetExit, CallFunction("fset", [h + 1, h]), GetExit]
  }

  /** `register`: `make_function` first; when it fails `fset` is never
      attempted, otherwise the result is that of binding the new function. */
  function Register(rt: Rt, name: string, subr: FnPtr, arities: Arities, doc: string, data: Handle): (r: Step<Handle>)
    ensures Extends(rt, r.rt)
    ensures MakeFunction !in rt.table ==> r.out == Err(CoreFnMissing("make_function")) && r.rt == rt
    ensures MakeFunction in rt.table && '\0' in doc ==> r.out == Err(NulError) && r.rt == rt
    ensures var made := MakeFunctionValue(rt, subr, arities, doc, data);
      !made.out.Ok? ==> r.out == Propagate(made.out) && r.rt == made.rt
    ensures var made := MakeFunctionValue(rt, subr, arities, doc, data);
      made.out.Ok? ==> r == Fset(made.rt, name, made.out.value)
  {
    var Step(f, rt1) := MakeFunctionValue(rt, subr, arities, doc, data);
    if !f.Ok? then Step(Propagate(f), rt1) else
    Fset(rt1, name, f.value)
  }

  /** In a healthy runtime `register` creates the function, then binds its
      name to exactly that function. */
  lemma {:induction false} RegisterHealthy(rt: Rt, name: string, subr: FnPtr, arities: Arities, doc: string, data: Handle)
    requires Healthy(rt) && '\0' !in doc
    ensures Register(rt, name, subr, arities, doc, data).out == Ok(rt.next + 2)
    ensures Register(rt, name, subr, arities, doc, data).rt
         == rt.(log := rt.log + RegisterLog(name, subr, arities, doc, data, rt.next), next := rt.next + 3)
  {
    MakeFunctionValueHealthy(rt, subr, arities, doc, data);
    var rt1 := MakeFunctionValue(rt, subr, arities, doc, data).rt;
    assert Healthy(rt1);
    FsetHealthy(rt1, name, rt.next);
    assert rt1.log + [InternSymbol(name), GetExit, CallFunction("fset", [rt1.next, rt.next]), GetExit]
        == rt.log + RegisterLog(name, subr, arities, doc, data, rt.next);
  }

  /** A runtime in which every slot is present and nothing is pending, and
      in which the only primitive calls that raise are `fset` calls, each
      leaving the signal `(s, d)` pending. */
  predicate OnlyFsetSignals(rt: Rt, s: Handle, d: Handle)
  {
    && (forall slot: Slot :: slot in rt.table)
    && rt.exit.status == RETURN
    && (forall c :: c in rt.raises ==> c.CallFunction? && c.fname == "fset" && rt.raises[c] == Pending(SIGNAL, s, d))
  }

  /** When Lisp signals from the `fset` call that binds the new function,
      `register` returns exactly that signal as its error, after the
      function was created and the name interned, and leaves nothing
      pending. */
  lemma {:induction false} RegisterFsetSignals(rt: Rt, name: string, subr: FnPtr, arities: Arities, doc: string,
                                                data: Handle, s: Handle, d: Handle)
    requires OnlyFsetSignals(rt, s, d) && '\0' !in doc
    requires CallFunction("fset", [rt.next + 1, rt.next]) in rt.raises
    ensures Register(rt, name, subr, arities, doc, data).out == Err(Signal(s, d))
    ensures Register(rt, name, subr, arities, doc, data).rt
         == rt.(exit := Pending(RETURN, s, d),
                log := rt.log + RegisterLog(name, subr, arities, doc, data, rt.next) + [ClearExit],
                next := rt.next + 3)
  {
    var made := MakeFunctionValue(rt, subr, arities, doc, data);
    assert NewFunctionCall(subr, arities, doc, data) !in rt.raises;
    assert made.out == Ok(rt.next);
    var rt1 := made.rt;
    assert InternSymbol(name) !in rt1.raises;
    var sym := RawCall(rt1, InternSymbol(name));
    assert sym.out == Ok(rt.next + 1);
    var rt2 := sym.rt;
    assert rt2.log + [CallFunction("fset", [rt.next + 1, rt.next]), GetExit, ClearExit]
        == rt.log + RegisterLog(name, subr, arities, doc, data, rt.next) + [ClearExit];
  }
}
