/** The engine's `NativeCallContext`, as the function pointer uses it.
    Its dispatch (`call_fn_raw`) belongs to the engine and is not modelled:
    the context records every call it receives and answers with results
    fixed in advance. */
module CallContext {
  import opened Values

  /** A mutable `Dynamic` location the caller owns (`&mut Dynamic`). */
  class Slot {
    var value: Dynamic

    constructor (value: Dynamic)
      ensures this.value == value
    {
      this.value := value;
    }
  }

  /** What one call to `call_fn_raw` received: the function name, the
      method-call flag, the flag allowing the first argument to be mutated,
      and the values of the argument list at the moment of the call. */
  datatype CallRecord = CallRecord(fnName: string, isMethod: bool, allowMut: bool, args: seq<Dynamic>)

  /** The argument values behind a list made of an optional receiver slot
      followed by a buffer of values. */
  function ArgumentValues(receiver: Option<Dynamic>, rest: seq<Dynamic>): seq<Dynamic>
  {
    match receiver
    case None => rest
    case Some(v) => [v] + rest
  }

  class NativeCallContext {
    /** Every call `call_fn_raw` has received, oldest first. */
    var log: seq<CallRecord>
    /** The result the engine produces for a call. */
    const outcome: CallRecord -> RhaiResult
    /** The value the callee leaves in the i-th argument slot; the arguments
        are `&mut` references, so a callee may change or consume them. */
    const leaves: (CallRecord, nat) -> Dynamic

    constructor (outcome: CallRecord -> RhaiResult, leaves: (CallRecord, nat) -> Dynamic)
      ensures log == [] && this.outcome == outcome && this.leaves == leaves
    {
      log := [];
      this.outcome := outcome;
      this.leaves := leaves;
    }

    /** `call_fn_raw(name, is_method_call, allow_mutation, args)`, where the
        argument list is the optional `receiver` slot followed by the slots
        of `args`. */
    method CallFnRaw(fnName: string, isMethod: bool, allowMut: bool, receiver: Slot?, args: array<Dynamic>)
      returns (r: RhaiResult)
      modifies this, receiver, args
      ensures var rec := CallRecord(fnName, isMethod, allowMut,
                                    ArgumentValues(if receiver == null then None else Some(old(receiver.value)), old(args[..])));
        && log == old(log) + [rec]
        && r == outcome(rec)
        && (receiver != null ==> receiver.value == leaves(rec, 0))
        && (forall i :: 0 <= i < args.Length ==>
              args[i] == leaves(rec, (if receiver == null then 0 else 1) + i))
    {
      var rec := CallRecord(fnName, isMethod, allowMut,
                            ArgumentValues(if receiver == null then None else Some(receiver.value), args[..]));
      var offset := if receiver == null then 0 else 1;
      if receiver != null {
        receiver.value := leaves(rec, 0);
      }
      forall i | 0 <= i < args.Length {
        args[i] := leaves(rec, offset + i);
      }
      log := log + [rec];
      r := outcome(rec);
    }
  }
}
