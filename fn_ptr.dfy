/** The function-pointer value `FnPtr` (src/types/fn_ptr.rs): the name of
    a function plus an ordered list of curried argument values, and the
    argument assembly of its call protocol. */
module FnPtrs {
  import opened Values
  import opened CallContext

  class FnPtr {
    var name: string
    var curried: seq<Dynamic>

    /** `new_unchecked`: trusted construction, no validation. */
    constructor NewUnchecked(name: string, curry: seq<Dynamic>)
      ensures FnName() == name && Curry() == curry
    {
      this.name := name;
      this.curried := curry;
    }

    /** `FnPtr::new` and every `TryFrom` conversion (from `Identifier`,
        `ImmutableString`, `String`, `Box<str>` and `&str`, all of them
        strings here): the pointer exists exactly when the name is a valid
        identifier, and it starts uncurried. An invalid name is reported as
        `ErrorFunctionNotFound`. `isValidIdentifier` is the tokenizer's
        check. */
    static method New(name: string, isValidIdentifier: string -> bool) returns (r: Result<FnPtr, EvalError>)
      ensures r.Ok? <==> isValidIdentifier(name)
      ensures r.Ok? ==> fresh(r.value) && r.value.FnName() == name && r.value.Curry() == []
      ensures r.Err? ==> r.error == ErrorFunctionNotFound(name)
    {
      if isValidIdentifier(name) {
        var p := new FnPtr.NewUnchecked(name, []);
        r := Ok(p);
      } else {
        r := Err(ErrorFunctionNotFound(name));
      }
    }

    /** `fn_name` / `fn_name_raw`. */
    function FnName(): string
      reads this
    {
      name
    }

    /** `curry`: the curried arguments, in order. */
    function Curry(): seq<Dynamic>
      reads this
    {
      curried
    }

    /** `take_data`: the name and the curried arguments, handed over. */
    method TakeData() returns (fnName: string, curry: seq<Dynamic>)
      ensures fnName == FnName() && curry == Curry()
    {
      fnName, curry := name, curried;
    }

    /** `num_curried`. */
    function NumCurried(): (n: nat)
      reads this
      ensures n == |Curry()|
    {
      |curried|
    }

    /** `is_curried`. */
    function IsCurried(): (b: bool)
      reads this
      ensures b <==> NumCurried() > 0
    {
      curried != []
    }

    /** `is_anonymous`: the name starts with the engine's reserved prefix for
        anonymous functions (`FN_ANONYMOUS`, passed in as `anonPrefix`). */
    function IsAnonymous(anonPrefix: string): (b: bool)
      reads this
      ensures b <==> |anonPrefix| <= |FnName()| && FnName()[..|anonPrefix|] == anonPrefix
    {
      anonPrefix <= name
    }

    /** `add_curry`: appends one value; returns the pointer for chaining. */
    method AddCurry(value: Dynamic) returns (self: FnPtr)
      modifies this
      ensures self == this
      ensures Curry() == old(Curry()) + [value]
      ensures FnName() == old(FnName())
      ensures NumCurried() == old(NumCurried()) + 1 && IsCurried()
    {
      curried := curried + [value];
      self := this;
    }

    /** `set_curry`: replaces the whole list by the values, in iteration
        order; returns the pointer for chaining. */
    method SetCurry(values: seq<Dynamic>) returns (self: FnPtr)
      modifies this
      ensures self == this
      ensures Curry() == values
      ensures FnName() == old(FnName())
      ensures NumCurried() == |values|
    {
      curried := values;
      self := this;
    }

    /** `Display`: `Fn(<name>)`. */
    function Display(): (s: string)
      reads this
      ensures |s| == |FnName()| + 4
      ensures s[..3] == "Fn(" && s[|s| - 1] == ')'
      ensures s[3..|s| - 1] == FnName()
    {
      "Fn(" + name + ")"
    }

    /** `Debug`: the display form when uncurried, otherwise the tuple form
        `Fn(<name>, <curry>)` that `debug_tuple` writes, with the `Debug`
        renderings of the name and of the list passed in. */
    function Debug(debugName: string -> string, debugCurry: seq<Dynamic> -> string): (s: string)
      reads this
      ensures !IsCurried() ==> s == Display()
      ensures IsCurried() ==> s == "Fn(" + debugName(FnName()) + ", " + debugCurry(Curry()) + ")"
    {
      if curried == [] then "Fn(" + name + ")"
      else "Fn(" + debugName(name) + ", " + debugCurry(curried) + ")"
    }

    /** The call `call_raw` makes, given the receiver's value (if any) and
        the caller's argument values: the pointer's name, both flags set
        exactly when there is a receiver, and the arguments receiver first,
        then the curried values, then the caller's arguments. */
    function RawCallRecord(thisValue: Option<Dynamic>, args: seq<Dynamic>): (rec: CallRecord)
      reads this
      ensures rec.fnName == FnName()
      ensures rec.isMethod == thisValue.Some? && rec.allowMut == thisValue.Some?
      ensures |rec.args| == (if thisValue.Some? then 1 else 0) + NumCurried() + |args|
      ensures thisValue.Some? ==> rec.args[0] == thisValue.value
      ensures var offset := if thisValue.Some? then 1 else 0;
        forall i :: 0 <= i < NumCurried() ==> rec.args[offset + i] == Curry()[i]
      ensures var offset := if thisValue.Some? then 1 else 0;
        forall j :: 0 <= j < |args| ==> rec.args[offset + NumCurried() + j] == args[j]
    {
      CallRecord(name, thisValue.Some?, thisValue.Some?, ArgumentValues(thisValue, curried + args))
    }

    /** `call_raw`. With curried values, they are cloned into a new buffer
        and the caller's values are moved after them, leaving `()` in every
        caller slot; without, the caller's buffer is passed as it is. The
        receiver, if any, goes first and makes the call a method call that
        may mutate it. The callee's result is returned unchanged. */
    method CallRaw(ctx: NativeCallContext, thisPtr: Slot?, argValues: array<Dynamic>) returns (r: RhaiResult)
      modifies ctx, thisPtr, argValues
      ensures var rec := RawCallRecord(if thisPtr == null then None else Some(old(thisPtr.value)), old(argValues[..]));
        var offset := if thisPtr == null then 0 else 1;
        && ctx.log == old(ctx.log) + [rec]
        && r == ctx.outcome(rec)
        && (thisPtr != null ==> thisPtr.value == ctx.leaves(rec, 0))
        && (IsCurried() ==> forall i :: 0 <= i < argValues.Length ==> argValues[i] == Unit)
        && (!IsCurried() ==> forall i :: 0 <= i < argValues.Length ==> argValues[i] == ctx.leaves(rec, offset + i))
      ensures FnName() == old(FnName()) && Curry() == old(Curry())
    {
      var buffer := argValues;
      if NumCurried() > 0 {
        var n := |curried|;
        var argsData := new Dynamic[n + argValues.Length];
        var i := 0;
        while i < n
          invariant 0 <= i <= n
          invariant forall k :: 0 <= k < i ==> argsData[k] == curried[k]
          modifies argsData
        {
          argsData[i] := curried[i];
          i := i + 1;
        }
        var j := 0;
        while j < argValues.Length
          invariant 0 <= j <= argValues.Length
          invariant forall k :: 0 <= k < n ==> argsData[k] == curried[k]
          invariant forall k :: 0 <= k < j ==> argsData[n + k] == old(argValues[k]) && argValues[k] == Unit
          invariant forall k :: j <= k < argValues.Length ==> argValues[k] == old(argValues[k])
          modifies argsData, argValues
        {
          argsData[n + j] := argValues[j];
          argValues[j] := Unit;
          j := j + 1;
        }
        assert argsData[..] == curried + old(argValues[..]);
        buffer := argsData;
      } else {
        assert curried + argValues[..] == argValues[..];
      }
      var isMethod := thisPtr != null;
      r := ctx.CallFnRaw(name, isMethod, isMethod, thisPtr, buffer);
    }

    /** `call_within_context`: a plain (non-method) raw call with the given
        arguments, then the cast of its result to the requested type. An
        error from the call is passed through unchanged. */
    method CallWithinContext<T>(ctx: NativeCallContext, args: seq<Dynamic>, tryCast: Dynamic -> Option<T>,
                                requestedType: string, typeName: Dynamic -> string, mapTypeName: string -> string)
      returns (r: Result<T, EvalError>)
      modifies ctx
      ensures var rec := RawCallRecord(None, args);
        && ctx.log == old(ctx.log) + [rec]
        && r == match ctx.outcome(rec)
                case Err(e) => Err(e)
                case Ok(v) => CastOutput(v, tryCast, requestedType, typeName, mapTypeName)
    {
      var argValues := new Dynamic[|args|](i requires 0 <= i < |args| => args[i]);
      assert argValues[..] == args;
      var raw := CallRaw(ctx, null, argValues);
      match raw
      case Err(e) => r := Err(e);
      case Ok(v) => r := CastOutput(v, tryCast, requestedType, typeName, mapTypeName);
    }
  }

  /** The result-cast step shared by `call` and `call_within_context`: the
      cast value when the raw result has the requested type, otherwise
      `ErrorMismatchOutputType` naming the requested and the actual type, both
      as the engine maps type names for display. */
  function CastOutput<T>(result: Dynamic, tryCast: Dynamic -> Option<T>, requestedType: string,
                         typeName: Dynamic -> string, mapTypeName: string -> string): (r: Result<T, EvalError>)
    ensures r.Ok? <==> tryCast(result).Some?
    ensures r.Ok? ==> r.value == tryCast(result).value
    ensures r.Err? ==> r.error == ErrorMismatchOutputType(mapTypeName(requestedType), mapTypeName(typeName(result)))
  {
    match tryCast(result)
    case Some(v) => Ok(v)
    case None => Err(ErrorMismatchOutputType(mapTypeName(requestedType), mapTypeName(typeName(result))))
  }

  /** The text form determines the name: two pointers display alike exactly
      when they have the same name. */
  lemma DisplayDeterminesName(p: FnPtr, q: FnPtr)
    ensures p.Display() == q.Display() <==> p.FnName() == q.FnName()
  {
  }
}
