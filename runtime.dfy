/** The foreign runtime as the bridge sees it: a table of optional primitive
    slots, a pending non-local exit, and a log of the primitives invoked. */
module Runtime {
  import opened Values

  /** The slots of the module environment's function table that the bridge uses. */
  datatype Slot =
    | NonLocalExitGet
    | NonLocalExitClear
    | NonLocalExitSignal
    | NonLocalExitThrow
    | MakeFunction
    | Intern
    | MakeString
    | Funcall

  /** The slot's field name, as `stringify!` renders it in error messages. */
  function SlotName(s: Slot): string
  {
    match s
    case NonLocalExitGet => "non_local_exit_get"
    case NonLocalExitClear => "non_local_exit_clear"
    case NonLocalExitSignal => "non_local_exit_signal"
    case NonLocalExitThrow => "non_local_exit_throw"
    case MakeFunction => "make_function"
    case Intern => "intern"
    case MakeString => "make_string"
    case Funcall => "funcall"
  }

  /** One invocation of a primitive, with the arguments it was given. */
  datatype Call =
    | GetExit
    | ClearExit
    | RaiseSignal(symbol: Handle, data: Handle)
    | RaiseThrow(tag: Handle, value: Handle)
    | NewFunction(minArity: int, maxArity: int, subr: FnPtr, doc: string, data: Handle)
    | InternSymbol(name: string)
    | NewString(text: string)
    | CallFunction(fname: string, args: seq<Handle>)

  /** The slot through which a call is made. */
  function SlotOf(c: Call): Slot
  {
    match c
    case GetExit => NonLocalExitGet
    case ClearExit => NonLocalExitClear
    case RaiseSignal(_, _) => NonLocalExitSignal
    case RaiseThrow(_, _) => NonLocalExitThrow
    case NewFunction(_, _, _, _, _) => MakeFunction
    case InternSymbol(_) => Intern
    case NewString(_) => MakeString
    case CallFunction(_, _) => Funcall
  }

  /** The runtime's pending-exit state: a completion code and its two values. */
  datatype Pending = Pending(status: int, symbol: Handle, data: Handle)

  /** A snapshot of the runtime. `table` and `raises` are fixed by the runtime
      instance: `raises[c]` is the non-local exit that invoking `c` leaves
      pending (absent: the call returns normally). `next` is the handle the
      next value-producing primitive returns. */
  datatype Rt = Rt(exit: Pending, log: seq<Call>, next: Handle,
                   table: map<Slot, FnPtr>, raises: map<Call, Pending>)

  /** What every step preserves: the table and the runtime's behaviour do not
      change, the log only grows, and handles are never reissued. */
  predicate Extends(rt: Rt, rt': Rt)
  {
    && rt'.table == rt.table
    && rt'.raises == rt.raises
    && rt.log <= rt'.log
    && rt.next <= rt'.next
  }

  /** A runtime with every slot present, no exit pending, and in which no
      primitive raises. */
  predicate Healthy(rt: Rt)
  {
    && (forall s: Slot :: s in rt.table)
    && rt.raises == map[]
    && rt.exit.status == RETURN
  }

  /** What a bridge operation produces: its outcome and the runtime after it. */
  datatype Step<+T> = Step(out: Outcome<T>, rt: Rt)

  /** Calls a present primitive: it is logged, returns a fresh handle, and
      leaves the exit that the runtime raises for it (if any) pending. */
  function Invoke(rt: Rt, c: Call): (r: (Handle, Rt))
    ensures r.0 == rt.next && r.1.next == rt.next + 1
    ensures r.1.log == rt.log + [c]
    ensures r.1.exit == (if c in rt.raises then rt.raises[c] else rt.exit)
    ensures Extends(rt, r.1)
  {
    (rt.next, rt.(log := rt.log + [c], next := rt.next + 1,
                  exit := if c in rt.raises then rt.raises[c] else rt.exit))
  }

  /** `raw_fn!`: the slot's function, or `CoreFnMissing` naming the slot. */
  function RawFn(table: map<Slot, FnPtr>, s: Slot): (r: Outcome<FnPtr>)
    ensures r.Ok? <==> s in table
    ensures r.Ok? ==> r.value == table[s]
    ensures !r.Ok? ==> r == Err(CoreFnMissing(SlotName(s)))
  {
    if s in table then Ok(table[s]) else Err(CoreFnMissing(SlotName(s)))
  }

  /** `critical!`'s lookup: a missing slot is fatal, with a message naming it. */
  function Critical(table: map<Slot, FnPtr>, s: Slot): (r: Outcome<FnPtr>)
    ensures !r.Err?
    ensures r.Ok? <==> s in table
    ensures r.Ok? ==> r.value == table[s]
    ensures r.Panicked? ==> r.cause == RequiredFunctionMissing(SlotName(s))
  {
    match RawFn(table, s)
    case Ok(f) => Ok(f)
    case Err(_) => Panicked(RequiredFunctionMissing(SlotName(s)))
    case Panicked(f) => Panicked(f)
  }

  /** Distinct slots are reported under distinct names. */
  lemma {:induction false} SlotNamesDistinct(s: Slot, t: Slot)
    requires s != t
    ensures SlotName(s) != SlotName(t)
  {
  }

  /** The error of a failed lookup identifies the missing slot: two lookups
      that fail with the same error looked up the same slot. */
  lemma {:induction false} MissingSlotIdentified(table: map<Slot, FnPtr>, s: Slot, t: Slot)
    requires !RawFn(table, s).Ok? && RawFn(table, s) == RawFn(table, t)
    ensures s == t
  {
    if s != t {
      SlotNamesDistinct(s, t);
    }
  }
}
