# Rhai function dispatch: hash keys and function pointers

This project models two parts of the Rhai scripting engine's function-dispatch
layer in Dafny and proves properties of them.

- **Hash keys** (`src/func/hashing.rs`, module `Hashing` in `hashing.dfy`).
  These are the 64-bit keys used to look up namespace-qualified variables
  (`calc_qualified_var_hash`), functions by name and arity
  (`calc_qualified_fn_hash`, `calc_fn_hash`) and parameter-type lists
  (`calc_fn_params_hash`). Keys are joined with `combine_hashes`.
  `StraightHasher` is the pass-through hasher for keys already computed.
  The general-purpose hasher (`DefaultHasher`, which is SipHash) is modelled
  only by the stream of tokens it is fed. `CalcQualifiedVarHash`,
  `CalcQualifiedFnHash` and `CalcFnParamsHash` are loops that feed those
  tokens into a `DefaultHasher` object and then return `digest(tokens)`,
  where `digest` is any function passed in; `CalcFnHash` delegates to
  `CalcQualifiedFnHash` with an empty path. So every fact
  about keys holds for every digest. Distinctness is proved only for token
  streams, never for keys.
- **Function pointers** (`src/types/fn_ptr.rs`, modules `FnPtrs` in `fn_ptr.dfy`
  and `CallContext` in `call_context.dfy`). `FnPtr` is a class holding a name and
  an ordered list of curried values. Construction is validated. The curry list
  changes in place. The read-only views are `FnName`, `Curry`, `NumCurried`,
  `IsCurried` and `IsAnonymous`. `Display` and `Debug` give the text forms.
  `CallRaw` assembles the arguments, and `CallWithinContext` adds the typed
  result cast. The engine's `NativeCallContext` is a class that records each
  `call_fn_raw` call it receives (name, method flag, mutation flag, argument
  values). Its answers are fixed in advance: the result (`outcome`) and the
  value the callee leaves in each `&mut` argument slot (`leaves`).
- `values.dfy` (module `Values`) holds the engine types the core only moves
  around. `Dynamic` has `Unit`, the `()` placeholder. The other types are
  `EvalError` and `Result`/`Option`.

Some members model a source function directly but carry no contract of their
own; the lemmas and contracts named here state their properties, so they have
no row below.

- `FnPtrs.FnPtr.FnName` and `FnPtrs.FnPtr.Curry` (src/types/fn_ptr.rs:47-55,
  65-67) are the two read views that every `FnPtr` contract is stated in.
- `Hashing.CombineHashes` (src/func/hashing.rs:138-140) is `a ^ b`; its algebra
  is stated by CombineCommutative, CombineAssociative and CombineCancels.
- `Hashing.StraightHasher.Finish` (src/func/hashing.rs:21-23) returns the
  state; StraightHasher.Write, StraightHasherBuilder.BuildHasher and
  StraightHashU64 state what it returns after building and writing.
- `Hashing.DefaultHasher.Finish` (src/func/hashing.rs:79, 109, 132) is the
  digest of the tokens fed so far; the `Calc...` methods state which tokens
  those are.
- `Hashing.FromLeBytes` (src/func/hashing.rs:31, `u64::from_ne_bytes`) and
  `Hashing.LeBytes` (the 8 bytes `write_u64` writes) are inverse to each
  other, by FromLeBytesOfLeBytes and LeBytesOfFromLeBytes.
- `Hashing.Skip1` (src/func/hashing.rs:75, 104) is `.skip(1)`; VarKeyLayout
  and FnKeyLayout state which modules it keeps.

## Notes on the code

- The path counter counts every module, the skipped first one included,
  because `inspect` comes before `skip(1)` (src/func/hashing.rs:72-76). The
  counter token is therefore `Counter(|modules|)`.
- The counter's type. The counter starts as the untyped literal `0`, and
  nothing constrains its type, so it takes Rust's default integer type and is
  hashed as an `i32`, unlike the `num: usize` argument. The model keeps the
  two apart as the tokens `Counter(n)` and `Usize(n)`.
- An invalid name fails with `ErrorFunctionNotFound(name)`
  (src/types/fn_ptr.rs:257).
- `call_raw`'s doc comment says all arguments are consumed and replaced by
  `()` (src/types/fn_ptr.rs:209-212). The code does that only when the pointer
  has curried values (src/types/fn_ptr.rs:224-229). Without curried values
  the callee gets the caller's own slots (src/types/fn_ptr.rs:237), and what
  is left in them is up to the callee. `CallRaw` states both cases.

## Model

| member | source | states |
|---|---|---|
| Hashing.DefaultHasher.constructor | src/func/hashing.rs:51-53 | a fresh hasher has been fed nothing |
| Hashing.DefaultHasher.Feed | src/func/hashing.rs:76-78 | hashing a value appends its token to the stream, after everything fed before |
| Hashing.CalcQualifiedVarHash | src/func/hashing.rs:65-80 | the key is the digest of: every module but the first, in order; then the count of all modules; then the variable name |
| Hashing.CalcQualifiedFnHash | src/func/hashing.rs:93-110 | the key is the digest of: every module but the first; then the count of all modules; then the function name; then the parameter count |
| Hashing.CalcFnHash | src/func/hashing.rs:118-120 | the key equals the qualified function key for an empty path, which is the digest of `[Counter(0), Str(name), Usize(num)]` |
| Hashing.CalcFnParamsHash | src/func/hashing.rs:127-133 | the key is the digest of every parameter type in order, then their count |
| Hashing.VarKeyLayout | src/func/hashing.rs:71-78 | the counter sits right after the hashed names; it holds the number of all modules, one more than the names hashed for a non-empty path; the variable name comes last |
| Hashing.FnKeyLayout | src/func/hashing.rs:100-108 | module names, then the counter of all modules, then the function name, then the parameter count, at fixed positions |
| Hashing.NameTokensInjective | src/func/hashing.rs:76 | the hashed name tokens are equal exactly when the name lists are equal |
| Hashing.VarKeyTokensInjective | src/func/hashing.rs:71-78 | two variable token streams are equal exactly when the paths have the same length, agree after the first segment, and name the same variable |
| Hashing.FnKeyTokensInjective | src/func/hashing.rs:100-108 | two function token streams are equal exactly when the paths have the same length, agree after the first segment, and have the same name and parameter count |
| Hashing.VarRootSegmentIgnored | src/func/hashing.rs:71-76 | paths that differ only in the first segment give the same variable token stream, so the same key under any digest |
| Hashing.FnRootSegmentIgnored | src/func/hashing.rs:100-105 | paths that differ only in the first segment give the same function token stream, so the same key under any digest |
| Hashing.LaterSegmentMatters | src/func/hashing.rs:73-76 | paths of equal length that differ in any segment after the first give different variable and function token streams |
| Hashing.ParamCountMatters | src/func/hashing.rs:107-108 | function inputs that differ only in the parameter count give different token streams |
| Hashing.ParamsKeyTokensInjective | src/func/hashing.rs:127-133 | two parameter-type token streams are equal exactly when the ordered type lists are equal |
| Hashing.CombineCommutative | src/func/hashing.rs:138-140 | `combine(a, b) == combine(b, a)` |
| Hashing.CombineAssociative | src/func/hashing.rs:138-140 | `combine(combine(a, b), c) == combine(a, combine(b, c))` |
| Hashing.CombineCancels | src/func/hashing.rs:138-140 | `combine(a, a) == 0`, `combine(a, 0) == a`, `combine(combine(a, b), b) == a` |
| Hashing.FromLeBytesOfLeBytes | src/func/hashing.rs:28-31 | decoding the 8-byte encoding of `v` gives `v` back |
| Hashing.LeBytesOfFromLeBytes | src/func/hashing.rs:28-31 | every 8-byte input is the encoding of the value it decodes to |
| Hashing.StraightHasher.constructor | src/func/hashing.rs:17 | the hasher holds the given state |
| Hashing.StraightHasher.Write | src/func/hashing.rs:24-32 | the write completes exactly when the input is 8 bytes long, and then the state is the value of those bytes, whatever it was before; any other length panics, carrying the assertion's message, and leaves the state alone |
| Hashing.StraightHasherBuilder.BuildHasher | src/func/hashing.rs:42-45 | a newly built hasher finishes with 42 |
| Hashing.StraightHashU64 | src/func/hashing.rs:19-33 | hashing a `u64` through a built hasher (write its 8 bytes, then finish) gives the value itself |
| CallContext.NativeCallContext.CallFnRaw | src/types/fn_ptr.rs:239 | the call is logged with its name, its flags and the argument values at call time; it answers the engine's result; each `&mut` slot then holds what the callee leaves in it |
| FnPtrs.FnPtr.NewUnchecked | src/types/fn_ptr.rs:41-43 | the pointer holds exactly the given name and curry list |
| FnPtrs.FnPtr.New | src/types/fn_ptr.rs:249-259 | succeeds exactly when the name is a valid identifier, with a fresh pointer of that name and no curried values; otherwise fails with `ErrorFunctionNotFound(name)` |
| FnPtrs.FnPtr.TakeData | src/types/fn_ptr.rs:59-61 | yields the pointer's name and curry list |
| FnPtrs.FnPtr.NumCurried | src/types/fn_ptr.rs:89-91 | the count equals the length of the curry list |
| FnPtrs.FnPtr.IsCurried | src/types/fn_ptr.rs:83-85 | true exactly when the count of curried values is positive |
| FnPtrs.FnPtr.IsAnonymous | src/types/fn_ptr.rs:98-100 | true exactly when the prefix is no longer than the name and the name's first characters are the prefix |
| FnPtrs.FnPtr.AddCurry | src/types/fn_ptr.rs:70-73 | the new curry list is the old one plus the value at the end; the name is unchanged; the count rises by one; the pointer itself is returned |
| FnPtrs.FnPtr.SetCurry | src/types/fn_ptr.rs:76-79 | the curry list becomes the given values in order; the name is unchanged; the pointer itself is returned |
| FnPtrs.FnPtr.Display | src/types/fn_ptr.rs:243-247 | the text is `Fn(`, then the name, then `)` |
| FnPtrs.FnPtr.Debug | src/types/fn_ptr.rs:22-30 | an uncurried pointer renders as its display form; a curried one as `Fn(<name>, <curry list>)` |
| FnPtrs.FnPtr.RawCallRecord | src/types/fn_ptr.rs:224-239 | the call uses the pointer's name; both flags are set exactly when a receiver is given; the arguments are the receiver, then the curried values, then the caller's arguments, position by position; the length is `(receiver ? 1 : 0) + num_curried + args` |
| FnPtrs.FnPtr.CallRaw | src/types/fn_ptr.rs:214-240 | the context receives exactly that call, and its result is returned; with curried values every caller slot holds `()` afterwards; without them the caller's slots are the callee's own; the receiver holds what the callee left; the pointer is unchanged |
| FnPtrs.FnPtr.CallWithinContext | src/types/fn_ptr.rs:175-195 | makes one non-method raw call with the curried values before the arguments; a call error passes through; otherwise the result is the cast of the raw value |
| FnPtrs.CastOutput | src/types/fn_ptr.rs:187-194 | succeeds exactly when the raw value casts to the requested type, giving the cast value; otherwise gives `ErrorMismatchOutputType(requested, actual)`, both type names mapped by the engine |
| FnPtrs.DisplayDeterminesName | src/types/fn_ptr.rs:243-247 | two pointers display alike exactly when they have the same name |

## Left out

- SipHash (`get_hasher`, which returns `DefaultHasher`): standard-library code that is not shown. Keys are an arbitrary `digest` of the token stream, so nothing is claimed about collisions between keys; how `str::hash` and integer hashing turn tokens into bytes is not modelled either.
- `TypeId`: an opaque standard-library identity. Here it is a datatype wrapping a number.
- The byte order of `u64::from_ne_bytes` is native. The model fixes little-endian.
- `is_valid_identifier` (the tokenizer) and the `FN_ANONYMOUS` constant are not part of this model. They are parameters of `New` and `IsAnonymous`.
- Hashing.CalcQualifiedVarHash: the counter is an `i32` in the source, and its wrap-around or overflow panic past 2^31 - 1 is not modelled. The same holds for CalcQualifiedFnHash and CalcFnParamsHash. The `usize` width of `num` is not modelled either. Counts are unbounded naturals.
- `call` (src/types/fn_ptr.rs:133-167): building a fresh `NativeCallContext` from an `Engine` and an `AST`, and the feature-dependent `lib` slicing, use engine types that are not part of this model. What follows is the same as `CallWithinContext`, and its cast step is `CastOutput`.
- `FuncArgs::parse`, `Dynamic::try_cast`, `Dynamic::type_name` and `Engine::map_type_name` are engine code. `CallWithinContext` takes the parsed arguments as a sequence, and the other three as function parameters.
- `NativeCallContext::call_fn_raw` is engine dispatch. It is modelled as a recording context whose result and slot contents are given in advance, not by running the callee.
- Source positions in errors (always `Position::NONE` here) are dropped. Errors raised inside a called function are one opaque `ErrorRaised` case, passed through unchanged.
- Debug: the alternate (`{:#?}`) layout of `debug_tuple`, and the `Debug` formatting of the name and of the values, are parameters.
- `fn_name_raw` returns the same name as `fn_name`, so it is covered by `FnName`.
- `StaticVec` inline capacity, cloning costs and `Hash`/`Clone` derives: representation details with no effect on behaviour.
- The rest of the engine (module resolvers, packages, examples, proc-macro tests) lies outside these two components.
- Feature flags (`no_function`, `no_std`) and thread safety.
