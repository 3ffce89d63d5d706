/** The `#[module]` attribute: parsing its options, and the behaviour of the
    init function it generates (set the prefix, store the flag, run every
    registered initializer, run the user's hook, provide the feature). */
module ModuleInit {
  import opened Values
  import opened Runtime
  import opened Exits
  import opened Functions

  /** Where the feature's name comes from. */
  datatype Name = Crate | Fn | Str(value: string)

  /** One item of an attribute's argument list. */
  datatype NestedMeta =
    | Word(ident: string)
    | ListMeta
    | NameValueMeta
    | StrLit(value: string)
    | OtherLit

  /** The errors the option parser reports (spans are not modelled). */
  datatype DarlingError = TooFewItems(min: nat) | TooManyItems(max: nat) | Custom(message: string)

  datatype Parsed<T> = Parsed(value: T) | Rejected(error: DarlingError)

  /** `Name::from_list`: exactly one item, which is the word `fn`, the word
      `crate`, or a string literal. */
  function FromList(outer: seq<NestedMeta>): (r: Parsed<Name>)
    ensures |outer| == 0 ==> r == Rejected(TooFewItems(1))
    ensures |outer| > 1 ==> r == Rejected(TooManyItems(1))
    ensures r == Parsed(Fn) <==> outer == [Word("fn")]
    ensures r == Parsed(Crate) <==> outer == [Word("crate")]
    ensures forall s :: r == Parsed(Str(s)) <==> outer == [StrLit(s)]
    ensures |outer| == 1 && outer[0].Word? && outer[0].ident != "fn" && outer[0].ident != "crate" ==>
      r == Rejected(Custom("Expected crate/fn"))
    ensures |outer| == 1 && !outer[0].Word? && !outer[0].StrLit? ==>
      r == Rejected(Custom("Expected crate/fn or a string"))
  {
    if |outer| == 0 then Rejected(TooFewItems(1))
    else if |outer| == 1 then
      match outer[0]
      case Word(ident) =>
        if ident == "fn" then Parsed(Fn)
        else if ident == "crate" then Parsed(Crate)
        else Rejected(Custom("Expected crate/fn"))
      case StrLit(value) => Parsed(Str(value))
      case _ => Rejected(Custom("Expected crate/fn or a string"))
    else Rejected(TooManyItems(1))
  }

  /** `Name::from_string`: any string literal names the feature. */
  function FromString(lit: string): (r: Parsed<Name>)
    ensures r.Parsed? && r.value == Str(lit)
  {
    Parsed(Str(lit))
  }

  /** The attribute item that denotes a name. */
  function Render(n: Name): NestedMeta
  {
    match n
    case Crate => Word("crate")
    case Fn => Word("fn")
    case Str(s) => StrLit(s)
  }

  /** Every name can be written as one item, and reads back as itself. */
  lemma {:induction false} FromListRender(n: Name)
    ensures FromList([Render(n)]) == Parsed(n)
  {
  }

  /** The options of `#[module]`. */
  datatype ModuleOpts = ModuleOpts(name: Name, separator: string, modInName: bool)

  /** The options with `default::*` filling in each one not given. */
  function WithDefaults(name: Option<Name>, separator: Option<string>, modInName: Option<bool>): (o: ModuleOpts)
    ensures o.name == (if name.Some? then name.value else Crate)
    ensures o.separator == (if separator.Some? then separator.value else "-")
    ensures o.modInName == (if modInName.Some? then modInName.value else true)
  {
    ModuleOpts(
      match name case Some(n) => n case None => Crate,
      match separator case Some(s) => s case None => "-",
      match modInName case Some(b) => b case None => true)
  }

  /** The feature's name: the crate's Lisp package name or the hook's Lisp
      name (both computed by code outside this model, so given here), or the
      explicit string. */
  function Feature(name: Name, crateFeature: string, fnFeature: string): (f: string)
    ensures name == Crate ==> f == crateFeature
    ensures name == Fn ==> f == fnFeature
    ensures name.Str? ==> f == name.value
  {
    match name
    case Crate => crateFeature
    case Fn => fnFeature
    case Str(s) => s
  }

  /** A pending export: what an initializer of the registry binds, under its
      full Lisp name. */
  datatype Registration = Registration(lispName: string, subr: FnPtr, arities: Arities, doc: string, data: Handle)

  /** Runs one initializer: it only extends the runtime, and fails only
      with what `register` can raise. */
  function RunOne(rt: Rt, reg: Registration): (r: Step<Handle>)
    ensures Extends(rt, r.rt)
    ensures r.out.Err? ==>
      r.out.error.CoreFnMissing? || r.out.error.NulError? || r.out.error.Signal? || r.out.error.Throw?
  {
    Register(rt, reg.lispName, reg.subr, reg.arities, reg.doc, reg.data)
  }

  /** One turn of the loop: after a failure nothing runs. */
  function Then(o: Outcome<()>, rt: Rt, reg: Registration): (r: Step<()>)
    ensures Extends(rt, r.rt)
    ensures !o.Ok? ==> r == Step(o, rt)
  {
    if !o.Ok? then Step(o, rt)
    else
      var Step(o1, rt1) := RunOne(rt, reg);
      Step(if o1.Ok? then Ok(()) else Propagate(o1), rt1)
  }

  /** `for (name, func) in funcs.iter() { func(env)? }`: the initializers in
      order, stopping at the first that fails. */
  function RunAll(rt: Rt, regs: seq<Registration>): (r: Step<()>)
    ensures Extends(rt, r.rt)
    decreases |regs|
  {
    if |regs| == 0 then Step(Ok(()), rt)
    else
      var prev := RunAll(rt, regs[..|regs| - 1]);
      Then(prev.out, prev.rt, regs[|regs| - 1])
  }

  /** Nothing after a failing initializer runs: once a prefix of the
      registry fails, running the whole registry ends in the same state. */
  lemma {:induction false} RunAllStopsAtFirstFailure(rt: Rt, regs: seq<Registration>, k: nat)
    requires k <= |regs|
    requires !RunAll(rt, regs[..k]).out.Ok?
    ensures RunAll(rt, regs) == RunAll(rt, regs[..k])
    decreases |regs|
  {
    if k < |regs| {
      var init := regs[..|regs| - 1];
      assert init[..k] == regs[..k];
      RunAllStopsAtFirstFailure(rt, init, k);
    } else {
      assert regs[..k] == regs;
    }
  }

  /** The primitives a healthy runtime sees while the registry runs, when
      the first handle it hands out is `h`. */
  function RegistrationsLog(regs: seq<Registration>, h: Handle): seq<Call>
    decreases |regs|
  {
    if |regs| == 0 then []
    else
      var last := regs[|regs| - 1];
      RegistrationsLog(regs[..|regs| - 1], h)
      + RegisterLog(last.lispName, last.subr, last.arities, last.doc, last.data, h + 3 * (|regs| - 1))
  }

  /** The log of a registry is that of all but its last initializer, then
      the last one's: `mid` is the log after all but the last have run, and
      `h1` the first handle the last one receives. */
  lemma {:induction false} RegistrationsLogSnoc(before: seq<Call>, regs: seq<Registration>, h: Handle, mid: seq<Call>, h1: Handle)
    requires |regs| > 0
    requires mid == before + RegistrationsLog(regs[..|regs| - 1], h)
    requires h1 == h + 3 * (|regs| - 1)
    ensures var last := regs[|regs| - 1];
      mid + RegisterLog(last.lispName, last.subr, last.arities, last.doc, last.data, h1)
      == before + RegistrationsLog(regs, h)
  {
  }

  /** In a healthy runtime every initializer runs, in order, each creating
      its function and then binding it under its name. */
  lemma {:induction false} RunAllHealthy(rt: Rt, regs: seq<Registration>)
    requires Healthy(rt)
    requires forall i :: 0 <= i < |regs| ==> '\0' !in regs[i].doc
    ensures RunAll(rt, regs).out == Ok(())
    ensures RunAll(rt, regs).rt.exit == rt.exit && Healthy(RunAll(rt, regs).rt)
    ensures RunAll(rt, regs).rt.log == rt.log + RegistrationsLog(regs, rt.next)
    ensures RunAll(rt, regs).rt.next == rt.next + 3 * |regs|
    decreases |regs|
  {
    if |regs| == 0 {
      assert rt.log + RegistrationsLog(regs, rt.next) == rt.log;
    } else {
      var init := regs[..|regs| - 1];
      var last := regs[|regs| - 1];
      RunAllHealthy(rt, init);
      var rt1 := RunAll(rt, init).rt;
      RegisterHealthy(rt1, last.lispName, last.subr, last.arities, last.doc, last.data);
      RegistrationsLogSnoc(rt.log, regs, rt.next, rt1.log, rt1.next);
    }
  }

  /** `env.provide(&feature)`: `provide` called with the interned feature. */
  function Provide(rt: Rt, feature: string): (r: Step<Handle>)
    ensures Extends(rt, r.rt)
    ensures Intern !in rt.table ==> r.out == Err(CoreFnMissing("intern")) && r.rt == rt
  {
    var Step(sym, rt1) := RawCall(rt, InternSymbol(feature));
    if !sym.Ok? then Step(Propagate(sym), rt1) else
    RawCall(rt1, CallFunction("provide", [sym.value]))
  }

  /** `provide` stops when interning the feature fails; otherwise its
      result, including an exit the `provide` call raises, is that call's. */
  lemma {:induction false} ProvideStopsAtFirstFailure(rt: Rt, feature: string)
    ensures var sym := RawCall(rt, InternSymbol(feature));
      !sym.out.Ok? ==> Provide(rt, feature) == Step(Propagate(sym.out), sym.rt)
    ensures var sym := RawCall(rt, InternSymbol(feature));
      sym.out.Ok? ==> Provide(rt, feature) == RawCall(sym.rt, CallFunction("provide", [sym.out.value]))
  {
  }

  /** The primitives `provide` invokes in a healthy runtime, when the
      feature's symbol is handle `h`. */
  function ProvideLog(feature: string, h: Handle): seq<Call>
  {
    [InternSymbol(feature), GetExit, CallFunction("provide", [h]), GetExit]
  }

  /** In a healthy runtime `provide` is called with the interned feature. */
  lemma {:induction false} ProvideHealthy(rt: Rt, feature: string)
    requires Healthy(rt)
    ensures Provide(rt, feature).out == Ok(rt.next + 1)
    ensures Provide(rt, feature).rt
         == rt.(log := rt.log + ProvideLog(feature, rt.next),
                next := rt.next + 2)
  {
    var rt1 := RawCall(rt, InternSymbol(feature)).rt;
    assert Healthy(rt1);
    assert rt1.log + [CallFunction("provide", [rt.next]), GetExit] == rt.log + ProvideLog(feature, rt.next);
  }

  /** What the init function does once the prefix is set: run every
      initializer (under the registry's lock), then the user's hook (whose
      outcome is `hook`), then provide the feature; the first failure ends it. */
  function Load(rt: Rt, regs: seq<Registration>, feature: string, hook: Outcome<()>): (r: Step<Handle>)
    ensures Extends(rt, r.rt)
  {
    var Step(o, rt1) := RunAll(rt, regs);
    if !o.Ok? then Step(Propagate(o), rt1) else
    if !hook.Ok? then Step(Propagate(hook), rt1) else
    Provide(rt1, feature)
  }

  /** The primitives loading invokes in a healthy runtime whose next handle
      is `h`: every initializer's, then `provide`'s. */
  function LoadLog(regs: seq<Registration>, feature: string, h: Handle): seq<Call>
  {
    RegistrationsLog(regs, h) + ProvideLog(feature, h + 3 * |regs|)
  }

  /** In a healthy runtime, with NUL-free doc strings and a hook that
      succeeds, every initializer runs in order and then the feature is
      provided. */
  lemma {:induction false} LoadHealthy(rt: Rt, regs: seq<Registration>, feature: string)
    requires Healthy(rt)
    requires forall i :: 0 <= i < |regs| ==> '\0' !in regs[i].doc
    ensures Load(rt, regs, feature, Ok(())).out.Ok?
    ensures Load(rt, regs, feature, Ok(())).out.value == rt.next + 3 * |regs| + 1
    ensures Load(rt, regs, feature, Ok(())).rt.log == rt.log + LoadLog(regs, feature, rt.next)
  {
    RunAllHealthy(rt, regs);
    LoadProvidesHealthy(rt, regs, feature, RunAll(rt, regs).rt);
  }

  /** Once the initializers have run and left the runtime healthy in state
      `rt1`, loading with a hook that succeeds provides the feature. */
  lemma {:induction false} LoadProvidesHealthy(rt: Rt, regs: seq<Registration>, feature: string, rt1: Rt)
    requires RunAll(rt, regs).out == Ok(()) && RunAll(rt, regs).rt == rt1 && Healthy(rt1)
    requires rt1.log == rt.log + RegistrationsLog(regs, rt.next) && rt1.next == rt.next + 3 * |regs|
    ensures Load(rt, regs, feature, Ok(())).out == Ok(rt1.next + 1)
    ensures Load(rt, regs, feature, Ok(())).rt.log == rt.log + LoadLog(regs, feature, rt.next)
  {
    ProvideHealthy(rt1, feature);
    LoadLogSplit(rt.log, regs, feature, rt.next, rt1.log, rt1.next);
  }

  /** The loading log is the registry's, then `provide`'s: `mid` is the log
      after the registry has run and `h1` the next handle at that point. */
  lemma {:induction false} LoadLogSplit(before: seq<Call>, regs: seq<Registration>, feature: string,
                                        h: Handle, mid: seq<Call>, h1: Handle)
    requires mid == before + RegistrationsLog(regs, h) && h1 == h + 3 * |regs|
    ensures mid + ProvideLog(feature, h1) == before + LoadLog(regs, feature, h)
  {
  }

  /** A doc string with an interior NUL stops loading at its initializer:
      the ones before it have run, `make_function` is never called for it,
      the error is `NulError`, and the feature is not provided. */
  lemma {:induction false} LoadRejectsNulDoc(rt: Rt, regs: seq<Registration>, feature: string,
                                             hook: Outcome<()>, k: nat)
    requires Healthy(rt) && k < |regs|
    requires forall i :: 0 <= i < k ==> '\0' !in regs[i].doc
    requires '\0' in regs[k].doc
    ensures Load(rt, regs, feature, hook).out == Err(NulError)
    ensures Load(rt, regs, feature, hook).rt.log == rt.log + RegistrationsLog(regs[..k], rt.next)
  {
    var init := regs[..k];
    RunAllHealthy(rt, init);
    var rt1 := RunAll(rt, init).rt;
    var upto := regs[..k + 1];
    assert upto[..|upto| - 1] == init && upto[|upto| - 1] == regs[k];
    assert RunAll(rt, upto) == Step(Err(NulError), rt1);
    RunAllStopsAtFirstFailure(rt, regs, k + 1);
  }

  /** A hook that fails after every initializer has run ends loading with
      its error, before the feature is provided. */
  lemma {:induction false} LoadHookFails(rt: Rt, regs: seq<Registration>, feature: string, hook: Outcome<()>)
    requires Healthy(rt) && !hook.Ok?
    requires forall i :: 0 <= i < |regs| ==> '\0' !in regs[i].doc
    ensures Load(rt, regs, feature, hook).out == Propagate(hook)
    ensures Load(rt, regs, feature, hook).rt.log == rt.log + RegistrationsLog(regs, rt.next)
  {
    RunAllHealthy(rt, regs);
  }

  /** The process-wide state the init function writes: the prefix slot and
      its lock, the module-path flag, and the registry of initializers with
      its lock (a lock flag is set when someone else holds it). */
  datatype Globals = Globals(prefix: seq<string>, prefixLocked: bool, modInName: bool,
                             initFnsLocked: bool, initFns: seq<Registration>)

  /** What loading produces: the init function's outcome, the runtime, and
      the process-wide state. */
  datatype Loaded = Loaded(out: Outcome<Handle>, rt: Rt, globals: Globals)

  /** The init function `gen_init` generates: it computes the feature's name
      from the name option, sets the prefix under its lock and the
      module-path flag, runs the initializers under the registry's lock,
      then the hook, then provides the feature. A lock held elsewhere is
      fatal. `crateFeature` and `fnFeature` are the crate's and the hook's
      Lisp names. */
  function Init(rt: Rt, g: Globals, opts: ModuleOpts, crateFeature: string, fnFeature: string,
                hook: Outcome<()>): (r: Loaded)
    ensures Extends(rt, r.rt)
    ensures g.prefixLocked ==> r == Loaded(Panicked(PrefixLockHeld), rt, g)
    ensures var feature := Feature(opts.name, crateFeature, fnFeature);
      !g.prefixLocked ==> r.globals == g.(prefix := [feature, opts.separator], modInName := opts.modInName)
    ensures !g.prefixLocked && g.initFnsLocked ==> r.out == Panicked(InitializersLockHeld) && r.rt == rt
    ensures var feature := Feature(opts.name, crateFeature, fnFeature);
      !g.prefixLocked && !g.initFnsLocked ==>
        r.out == Load(rt, g.initFns, feature, hook).out && r.rt == Load(rt, g.initFns, feature, hook).rt
  {
    var feature := Feature(opts.name, crateFeature, fnFeature);
    if g.prefixLocked then Loaded(Panicked(PrefixLockHeld), rt, g) else
    var g1 := g.(prefix := [feature, opts.separator]);
    var g2 := g1.(modInName := opts.modInName);
    if g2.initFnsLocked then Loaded(Panicked(InitializersLockHeld), rt, g2) else
    var Step(o, rt1) := Load(rt, g2.initFns, feature, hook);
    Loaded(o, rt1, g2)
  }

  /** In a healthy runtime with both locks free and a hook that succeeds,
      loading succeeds: every initializer runs in order, then the feature is
      provided, and the prefix and flag are those of the options. */
  lemma {:induction false} InitHealthy(rt: Rt, g: Globals, opts: ModuleOpts, crateFeature: string, fnFeature: string)
    requires Healthy(rt) && !g.prefixLocked && !g.initFnsLocked
    requires forall i :: 0 <= i < |g.initFns| ==> '\0' !in g.initFns[i].doc
    ensures var h := rt.next + 3 * |g.initFns|;
      var feature := Feature(opts.name, crateFeature, fnFeature);
      var r := Init(rt, g, opts, crateFeature, fnFeature, Ok(()));
      && r.out == Ok(h + 1)
      && r.rt.log == rt.log + LoadLog(g.initFns, feature, rt.next)
      && r.globals.prefix == [feature, opts.separator]
      && r.globals.modInName == opts.modInName
      && EntryStatus(r.out) == 0
  {
    LoadHealthy(rt, g.initFns, Feature(opts.name, crateFeature, fnFeature));
  }

  /** With an explicit name, that name heads the prefix and is the symbol
      interned for `provide`, which receives that symbol: the last four
      primitives of a healthy load. */
  lemma {:induction false} InitProvidesNamedFeature(rt: Rt, g: Globals, name: string, separator: string,
                                                    modInName: bool, crateFeature: string, fnFeature: string)
    requires Healthy(rt) && !g.prefixLocked && !g.initFnsLocked
    requires forall i :: 0 <= i < |g.initFns| ==> '\0' !in g.initFns[i].doc
    ensures var r := Init(rt, g, ModuleOpts(Str(name), separator, modInName), crateFeature, fnFeature, Ok(()));
      var h := rt.next + 3 * |g.initFns|;
      && r.globals.prefix == [name, separator]
      && |r.rt.log| >= 4
      && r.rt.log[|r.rt.log| - 4..] == [InternSymbol(name), GetExit, CallFunction("provide", [h]), GetExit]
  {
    var opts := ModuleOpts(Str(name), separator, modInName);
    InitHealthy(rt, g, opts, crateFeature, fnFeature);
    var log := Init(rt, g, opts, crateFeature, fnFeature, Ok(())).rt.log;
    var h := rt.next + 3 * |g.initFns|;
    assert log == (rt.log + RegistrationsLog(g.initFns, rt.next)) + ProvideLog(name, h);
  }

  /** When Lisp signals from the `fset` of the first initializer, the init
      function ends with that signal as its error (entry status 1), with
      nothing pending: the function was created and its name interned, and
      neither another initializer, nor the hook, nor `provide` ran. */
  lemma {:induction false} InitAbortsWhenFsetSignals(rt: Rt, g: Globals, opts: ModuleOpts, crateFeature: string,
                                                     fnFeature: string, hook: Outcome<()>, s: Handle, d: Handle)
    requires OnlyFsetSignals(rt, s, d) && !g.prefixLocked && !g.initFnsLocked
    requires |g.initFns| > 0 && '\0' !in g.initFns[0].doc
    requires CallFunction("fset", [rt.next + 1, rt.next]) in rt.raises
    ensures var r := Init(rt, g, opts, crateFeature, fnFeature, hook);
      var first := g.initFns[0];
      && r.out == Err(Signal(s, d))
      && EntryStatus(r.out) == 1
      && r.rt.exit.status == RETURN
      && r.rt.log == rt.log + RegisterLog(first.lispName, first.subr, first.arities, first.doc, first.data, rt.next)
                     + [ClearExit]
  {
    var regs := g.initFns;
    var first := regs[0];
    RegisterFsetSignals(rt, first.lispName, first.subr, first.arities, first.doc, first.data, s, d);
    var upto := regs[..1];
    assert upto[..|upto| - 1] == [] && upto[|upto| - 1] == first;
    assert RunAll(rt, upto).out == Err(Signal(s, d));
    RunAllStopsAtFirstFailure(rt, regs, 1);
  }
}
