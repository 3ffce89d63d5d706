# emacs-module-rs bridge core, in Dafny

This project models the core of emacs-module-rs, the Rust binding for Emacs
dynamic modules:

- the non-local-exit protocol between Rust and the module ABI:
  - `handle_exit` captures a pending signal or throw after a call into Lisp;
  - `maybe_exit` and `handle_panic` turn a Rust result or a caught panic
    back into a return value or a pending exit;
- the function-table accessor and the call wrappers (`raw_fn!`, `raw_call!`,
  `critical!`);
- the function registrar (`make_function`, `fset`, `register`);
- the calling convention of generated subroutines (`emacs_subrs!`);
- the `#[module]` attribute: its option parser and the behaviour of the init
  function it generates, with the 0/1 status the loader sees.

The Emacs side is an oracle value `Runtime.Rt`. It holds:

- the pending exit (status, symbol, data);
- the log of primitives invoked;
- the next handle a primitive returns;
- the table of present slots;
- a fixed map saying which primitive call leaves which exit pending.

`Healthy(rt)` is a runtime in which every slot is present, no exit is
pending, and no primitive raises.

The files:

- `values.dfy`: handles, the error kinds and the three-way `Outcome`. A panic
  is a `Panicked` outcome that `?` cannot stop.
- `runtime.dfy`: the slots, the primitive calls, `raw_fn!` and `critical!`.
- `exits.dfy`: `handle_exit`, `raw_call!`, `signal`, `throw`, `signal_str`,
  `maybe_exit`, `handle_panic`, `define_error(s)`, and the entry points' status.
- `functions.dfy`: `make_function`, `fset` and `register`.
- `subrs.dfy`: argument marshalling and the generated subroutine.
- `module_init.dfy`: the `#[module]` options and the init sequence.
- `bridge.dfy`: the imperative layer. Class `Env` keeps the pending exit in
  the fields `status`, `sym` and `data`, next to the call log. Its methods
  update these fields one primitive at a time. Class `Registry` is the
  process-wide state that the init function writes: the prefix, the module-path
  flag and the initializer map. Its `Init` method computes the feature, sets
  the prefix and the flag, and hands over to `Env.Load`, whose `Env.RunAll`
  loops over the initializers.
  Every method is proved to return exactly the result, and leave exactly the
  state, that the functional definitions in the other files prescribe.
  The properties of those definitions are proved as lemmas.

Where the source files disagree:

- `CoreFnMissing` is raised by `raw_fn!`, but `ErrorKind` in src/error.rs
  does not declare it. The model adds it as an error variant.
- src/func.rs carries an older copy of `raw_fn!`, `raw_call!` and
  `emacs_subrs!`. The model has one `raw_call!` and one subroutine
  convention, and cites both files.
- src/macros.rs calls `HandleExit::handle_exit` and `TriggerExit::maybe_exit`
  as trait methods, but src/error.rs declares neither trait. It defines both
  as inherent methods of `Env`. `raw_fn!` also builds an `Error { kind: … }`
  struct, while src/error.rs re-exports `failure::Error`. The model follows
  src/error.rs: one `handle_exit`, one `maybe_exit`, and `CoreFnMissing` as
  an error like any other.

## Model

| member | source | states |
|---|---|---|
| Runtime.RawFn | src/macros.rs:2-8 | the slot's function exactly when the slot is present, otherwise `CoreFnMissing` naming the slot |
| Runtime.SlotNamesDistinct | src/macros.rs:5 | distinct slots are reported under distinct names |
| Runtime.MissingSlotIdentified | src/macros.rs:4-6 | two lookups that fail with the same `CoreFnMissing` error looked up the same slot |
| Runtime.Critical | src/macros.rs:25-33 | a missing slot is fatal, with a message naming the function, and never an `Err` |
| Runtime.Invoke | src/macros.rs:13-16 | calling a primitive logs it, returns a fresh handle and leaves the runtime's exit for that call pending, changing nothing else |
| Exits.GetPending | src/error.rs:193-204 | reads exactly the pending status, symbol and data without changing them; a missing slot is fatal |
| Exits.ClearPending | src/error.rs:206-208 | afterwards the status is RETURN and one clear is logged; a missing slot is fatal |
| Exits.ThrowRaw | src/error.rs:214-217 | throws exactly the given tag and value and returns the tag |
| Exits.SignalRaw | src/error.rs:223-226 | signals exactly the given symbol and data and returns the symbol |
| Exits.HandleExit | src/error.rs:110-134 | RETURN yields the result unchanged without clearing; SIGNAL and THROW clear once and return the read handles as `Signal` or `Throw`; any other status is fatal and never an `Err` |
| Exits.RawCall | src/macros.rs:10-20 | a missing slot is an `Err` before anything is invoked or inspected; otherwise the primitive runs and its result goes through `handle_exit` (a raised signal or throw comes back as that error, with the call, the read and the clear logged and nothing left pending); its only errors are `CoreFnMissing`, `Signal` and `Throw` |
| Exits.SignalStr | src/error.rs:179-184 | on success a signal of the returned symbol is pending; its only errors are those of `raw_call!` |
| Exits.SignalStrStopsAtFirstFailure | src/error.rs:179-184 | string, list, intern and signal run in that order, each only when the ones before succeeded, and the first failure is the result |
| Exits.SignalStrHealthy | src/error.rs:179-184 | makes the message string, the one-element list and the symbol, in that order, then signals the symbol with the list |
| Values.Display | src/error.rs:37-74 | the display text of `WrongTypeUserPtr` is `expected: ` followed by exactly the expected type |
| Exits.ErrorSymbol | src/error.rs:146-151 | the symbol is `rust-wrong-type-user-ptr` exactly for `WrongTypeUserPtr`, otherwise `rust-error` |
| Exits.OrDie | src/error.rs:146-151 | never an `Err`: a failure to signal becomes a fatal `Failed to signal` panic, and success passes through; the runtime is that of the signalling step |
| Exits.MaybeExit | src/error.rs:138-154 | `Ok` passes through untouched; `Signal` and `Throw` are re-raised with the same handles and return the symbol or tag; other errors are signalled under their symbol with their display text, and failing to signal is fatal; never an `Err` |
| Exits.MaybeExitHealthy | src/error.rs:146-151 | a non-exit error leaves a signal under `rust-wrong-type-user-ptr` (for `WrongTypeUserPtr`) or `rust-error`, with the display text as the only datum |
| Exits.CapturedExitReRaised | src/error.rs:110-154 | an exit captured by `handle_exit` and handed to `maybe_exit` is pending again with identical handles |
| Exits.ReRaisedExitCaptured | src/error.rs:110-154 | with no exit pending, a `Signal` or `Throw` re-raised by `maybe_exit` is captured by the next `handle_exit` as the same error |
| Exits.HandlePanic | src/error.rs:157-166 | a returned value passes through; an unwind becomes a `rust-panic` signal, and failing to signal it is fatal |
| Exits.HandlePanicHealthy | src/error.rs:157-166 | a caught panic leaves a `rust-panic` signal whose data is the one-element list of the rendered payload |
| Exits.DefineError | src/error.rs:186-191 | a missing `intern` slot fails before anything runs |
| Exits.DefineErrorStopsAtFirstFailure | src/error.rs:186-191 | name, message and parent are made in that order, each only when the ones before succeeded; the first failure is the result, otherwise the `define-error` call's result is |
| Exits.DefineErrorHealthy | src/error.rs:186-191 | calls `define-error` with the interned name, the message and the interned parent, in that order |
| Exits.DefineErrors | src/error.rs:168-176 | a failure of the first definition ends it with that failure |
| Exits.DefineErrorsStopsAtFirstFailure | src/error.rs:168-176 | after the first definition succeeds, a failing second ends it before the third, and otherwise the third's outcome decides it |
| Exits.DefineErrorsHealthy | src/error.rs:168-176 | defines `rust-panic` and `rust-error` under `error`, then `rust-wrong-type-user-ptr` under `rust-error`, in that order |
| Exits.EntryStatus | src/macros.rs:53-70 | both entry points return 0 exactly for `Ok` and 1 exactly for `Err` |
| Functions.AsIsize | src/func.rs:53 | `usize as isize`: the same 64 bits, unchanged below 2^63 |
| Functions.MakeFunctionValue | src/func.rs:50-56 | a missing slot or a doc string with a NUL fails before the primitive is called |
| Functions.MakeFunctionValueHealthy | src/func.rs:50-56 | one primitive call with `start` as minimum arity and `end` as maximum, and the subroutine, doc string and data |
| Functions.Fset | src/func.rs:58-62 | a missing `intern` slot fails before anything runs |
| Functions.FsetStopsAtFirstFailure | src/func.rs:58-62 | a failure to intern the name is the result; otherwise the result, including an exit the `fset` call raises, is that call's |
| Functions.FsetHealthy | src/func.rs:58-62 | interns the name, then calls `fset` with exactly the symbol and the function, in that order |
| Functions.Register | src/func.rs:64-68 | `make_function` runs first; when it fails its failure is the result and no `fset` runs, otherwise the result is that of `fset` on the new function |
| Functions.RegisterHealthy | src/func.rs:64-68 | creates the function, then binds the name to exactly that function |
| Functions.RegisterFsetSignals | src/func.rs:58-68 | when Lisp signals from the `fset` call, `register` returns that signal as its error after creating the function and interning the name, and nothing is left pending |
| Subrs.ArgsToValues | src/macros.rs:84-86 | exactly `nargs` values, each wrapping the raw argument at the same position |
| Subrs.Subr | src/macros.rs:75-91 | the handler runs on the subroutine's environment; its result always leaves through `maybe_exit` on the runtime the handler left, and a handler panic leaves the subroutine; the runtime is only extended |
| Subrs.GuardedSubr | src/macros.rs:79-89 | with the trampoline, the subroutine never returns an `Err`; a handler panic goes to `handle_panic` on the runtime the handler left, and a run without a panic is that of `maybe_exit` |
| Subrs.GuardedSubrHealthy | src/macros.rs:79-89 | with the trampoline, a subroutine whose handler leaves the runtime healthy always returns, and a handler panic becomes a pending `rust-panic` signal |
| Subrs.PanicEscapesSubr | src/macros.rs:79-89 | a panicking handler's unwind escapes the subroutine as written, and becomes a signal with the trampoline |
| ModuleInit.FromList | emacs-macros/src/module.rs:53-74 | no item: too few (1); several: too many (1); one item: `fn`, `crate` or a string literal, each if and only if, and the two custom errors otherwise |
| ModuleInit.FromListRender | emacs-macros/src/module.rs:53-74 | every name written as one item parses back to itself |
| ModuleInit.FromString | emacs-macros/src/module.rs:76-78 | any literal names the feature as itself |
| ModuleInit.WithDefaults | emacs-macros/src/module.rs:17-48 | unset options default to name `Crate`, separator `"-"` and `mod_in_name` true |
| ModuleInit.Feature | emacs-macros/src/module.rs:118-131 | the feature is the crate's name, the hook's name or the explicit string |
| ModuleInit.RunOne | emacs-macros/src/module.rs:147 | one initializer only extends the runtime and fails only with a missing core function, a NUL in the doc string, or a Lisp signal or throw |
| ModuleInit.Then | emacs-macros/src/module.rs:146-148 | after a failure no initializer runs |
| ModuleInit.RunAll | emacs-macros/src/module.rs:144-149 | running the registry only extends the runtime; by induction over the registry, with `Then` for each turn |
| ModuleInit.RunAllStopsAtFirstFailure | emacs-macros/src/module.rs:144-149 | once a prefix of the registry fails, the whole registry ends in that same state |
| ModuleInit.RunAllHealthy | emacs-macros/src/module.rs:144-149 | every initializer runs in order, each creating then binding its function |
| ModuleInit.Provide | emacs-macros/src/module.rs:159 | a missing `intern` slot fails before anything runs |
| ModuleInit.ProvideStopsAtFirstFailure | emacs-macros/src/module.rs:159 | a failure to intern the feature is the result; otherwise the result, including an exit the `provide` call raises, is that call's |
| ModuleInit.ProvideHealthy | emacs-macros/src/module.rs:159 | `provide` is called with the interned feature |
| ModuleInit.Load | emacs-macros/src/module.rs:142-160 | the initializers, the hook and `provide`, in that order, only extend the runtime |
| ModuleInit.LoadHealthy | emacs-macros/src/module.rs:142-160 | the initializers run in order, then the hook, then `provide` |
| ModuleInit.LoadRejectsNulDoc | emacs-macros/src/module.rs:144-149 | the first initializer whose doc string has a NUL ends loading with that error, after exactly the initializers before it |
| ModuleInit.LoadHookFails | emacs-macros/src/module.rs:158 | a failing hook ends loading with its error after every initializer, and `provide` is never called |
| ModuleInit.Init | emacs-macros/src/module.rs:118-160 | the feature is computed from the name option; a held prefix lock is fatal and changes nothing; otherwise prefix `[feature, separator]` and the flag are set; a held registry lock is then fatal; otherwise loading proceeds with that feature |
| ModuleInit.InitHealthy | emacs-macros/src/module.rs:118-160 | with free locks and a succeeding hook the init function succeeds (entry status 0) after running every initializer and providing the feature named by the options, which also heads the prefix |
| ModuleInit.InitProvidesNamedFeature | emacs-macros/src/module.rs:128-159 | with an explicit name, that name heads the prefix, and the last primitives interned it and called `provide` with its symbol |
| ModuleInit.InitAbortsWhenFsetSignals | emacs-macros/src/module.rs:144-160 | a signal from the first initializer's `fset` ends the init function with that error (entry status 1), nothing pending, and no further initializer, hook or `provide` |
| Bridge.Env.Invoke | src/macros.rs:13-16 | the fields change as one primitive call prescribes |
| Bridge.Env.GetPending | src/error.rs:193-204 | result and fields as `Exits.GetPending` |
| Bridge.Env.ClearPending | src/error.rs:206-208 | result and fields as `Exits.ClearPending` |
| Bridge.Env.ThrowRaw | src/error.rs:214-217 | result and fields as `Exits.ThrowRaw` |
| Bridge.Env.SignalRaw | src/error.rs:223-226 | result and fields as `Exits.SignalRaw` |
| Bridge.Env.HandleExit | src/error.rs:110-134 | result and fields as `Exits.HandleExit` |
| Bridge.Env.RawCall | src/macros.rs:10-20 | result and fields as `Exits.RawCall` |
| Bridge.Env.SignalStr | src/error.rs:179-184 | result and fields as `Exits.SignalStr` |
| Bridge.Env.MaybeExit | src/error.rs:138-154 | result and fields as `Exits.MaybeExit` |
| Bridge.Env.HandlePanic | src/error.rs:157-166 | result and fields as `Exits.HandlePanic` |
| Bridge.Env.DefineError | src/error.rs:186-191 | result and fields as `Exits.DefineError` |
| Bridge.Env.DefineErrors | src/error.rs:168-176 | result and fields as `Exits.DefineErrors` |
| Bridge.Env.MakeFunctionValue | src/func.rs:50-56 | result and fields as `Functions.MakeFunctionValue` |
| Bridge.Env.Fset | src/func.rs:58-62 | result and fields as `Functions.Fset` |
| Bridge.Env.Register | src/func.rs:64-68 | result and fields as `Functions.Register` |
| Bridge.Env.RunAll | emacs-macros/src/module.rs:142-150 | the loop over the initializers, returning at the first failure, ends as `ModuleInit.RunAll` |
| Bridge.Env.Provide | emacs-macros/src/module.rs:159 | result and fields as `ModuleInit.Provide` |
| Bridge.Env.Load | emacs-macros/src/module.rs:142-160 | result and fields as `ModuleInit.Load` |
| Bridge.Env.Resume | src/macros.rs:87 | the environment takes over exactly the runtime the handler left |
| Bridge.Env.GuardedSubr | src/macros.rs:79-89 | marshals the argument array, runs the handler on the environment, then result and fields as `Subrs.GuardedSubr` on its first `nargs` elements |
| Bridge.Registry.Init | emacs-macros/src/module.rs:132-160 | result, environment and process-wide state as `ModuleInit.Init` |

## Left out

- `raw_call_no_exit!` is not shown in the source. Its callers return bare values, so it is modelled like `critical!`: a missing slot is fatal and `handle_exit` is not run.
- `Env::intern`, `Env::call`, `Env::list`, `Env::provide` and `into_lisp` for strings are not part of this model. `intern` and `into_lisp` are modelled as one `raw_call!` of `intern` and `make_string`. `call`, `list` and `provide` are each modelled as one `CallFunction` call of the named function; the interning of the function name is not modelled, nor is any other argument conversion.
- The display texts of `Signal`, `Throw`, `CoreFnMissing` and of other error types, and the `{:#?}` rendering of panic payloads, are placeholders. Only the `expected: ` prefix of `WrongTypeUserPtr` is fixed.
- `NulError` does not record the position of the NUL byte.
- `util::lisp_name`, `util::*_path` and `globals::lisp_pkg` are not part of this model. The feature's name for `crate` and `fn` is a parameter, and the full Lisp names of the registered functions are given in each `Registration`.
- The user's hook is an outcome parameter: its effects on the runtime are not modelled.
- Subrs.Subr and Subrs.GuardedSubr: a handler is any function from the environment's runtime to a result and a runtime that extends it. What the handler calls is not modelled further.
- ModuleInit.RunOne: each initializer is modelled as a single `register` call of one `Registration`. Nothing else an initializer might do is modelled.
- The initializer map is a `HashMap`. Its iteration order is unspecified, so it is modelled as a sequence in the order it happens to be iterated.
- `usize` and `isize` are those of a 64-bit target.
- A signal or throw raised while another exit is pending simply replaces it; the runtime's own behaviour there is not modelled.
- `catch_unwind` is not shown. A caught panic is the `Caught` value handed to `handle_panic`.
- Raw pointers, `mem::uninitialized`, GC rooting of `TempValue` and the `Send`/`Sync` impls are not modelled. Handles are compared only for identity.
- `Mutex::try_lock` and the relaxed atomic store are modelled only sequentially: a lock held elsewhere is fatal.
- `plugin_is_GPL_compatible` is a loader marker with no logic.
- The option parser's `darling` machinery, spans and token generation are not modelled. Only the parse results and the generated init function's behaviour are.
- The copy of `emacs_subrs!` in src/func.rs hands the raw argument slice to the handler unconverted. It is modelled by the same `Subrs.Subr`, whose handler receives the arguments in order.
- ModuleInit.RunAll and ModuleInit.Load: their own contracts state only that the runtime is extended. What they do is stated by RunAllStopsAtFirstFailure, RunAllHealthy, LoadHealthy, LoadRejectsNulDoc and LoadHookFails.

## Findings

| source | as written | input that shows it | evidently intended | confidence | as-written member | corrected member |
|---|---|---|---|---|---|---|
| src/macros.rs:79-89 | the generated `extern "C"` subroutine calls the handler and `maybe_exit` with no `catch_unwind` around them, so a panic unwinds across the C boundary into Emacs | a handler that panics whatever its arguments (`Subrs.Panicking`) | the panic is caught and turned into a `rust-panic` signal by `handle_panic` (src/error.rs:157-166), and the subroutine returns | medium, not executed | Subrs.PanicEscapesSubr | Subrs.GuardedSubrHealthy |
