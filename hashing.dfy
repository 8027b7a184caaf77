/** Hash keys for namespace-qualified functions and variables
    (src/func/hashing.rs).

    The general-purpose hasher (`DefaultHasher`, SipHash) is not modelled.
    Each `Calc...` method is modelled by the stream of tokens it feeds that
    hasher; the key is an arbitrary function `digest` of that stream, passed in
    as a parameter. Everything proved about keys therefore holds for every
    digest function, and everything about distinctness is proved of the token
    streams, never of the keys (keys may collide). */
module Hashing {

  /** `TypeId`: an opaque per-type fingerprint. */
  datatype TypeId = TypeId(fingerprint: nat)

  /** One value fed to the general-purpose hasher.
      - `Str`: a module, variable or function name (`str::hash`);
      - `Counter`: the element counter `len`. In the source it starts as the
        untyped literal `0` and nothing fixes its type, so Rust's integer
        fallback makes it an `i32`; it is kept apart from `Usize`;
      - `Usize`: the declared `num: usize` parameter count;
      - `TypeTok`: a parameter type identity. */
  datatype Token = Str(s: string) | Counter(n: nat) | Usize(n: nat) | TypeTok(t: TypeId)

  /** The iterator adaptor `.skip(1)`: drops the first element, if any. */
  function Skip1<T>(s: seq<T>): seq<T>
  {
    if |s| == 0 then [] else s[1..]
  }

  /** The `Str` tokens of names, in order. */
  function NameTokens(names: seq<string>): (r: seq<Token>)
    ensures |r| == |names|
    ensures forall i :: 0 <= i < |names| ==> r[i] == Str(names[i])
  {
    seq(|names|, i requires 0 <= i < |names| => Str(names[i]))
  }

  /** The `TypeTok` tokens of parameter types, in order. */
  function TypeTokens(params: seq<TypeId>): (r: seq<Token>)
    ensures |r| == |params|
    ensures forall i :: 0 <= i < |params| ==> r[i] == TypeTok(params[i])
  {
    seq(|params|, i requires 0 <= i < |params| => TypeTok(params[i]))
  }

  /** Reference definition of what `calc_qualified_var_hash` hashes: every
      module but the first, the count of ALL modules, the variable name. */
  function VarKeyTokens(modules: seq<string>, varName: string): seq<Token>
  {
    NameTokens(Skip1(modules)) + [Counter(|modules|), Str(varName)]
  }

  /** Reference definition of what `calc_qualified_fn_hash` hashes: every
      module but the first, the count of ALL modules, the function name, the
      number of parameters. */
  function FnKeyTokens(modules: seq<string>, fnName: string, num: nat): seq<Token>
  {
    NameTokens(Skip1(modules)) + [Counter(|modules|), Str(fnName), Usize(num)]
  }

  /** Reference definition of what `calc_fn_params_hash` hashes: every type
      identity in order, then their count. */
  function ParamsKeyTokens(params: seq<TypeId>): seq<Token>
  {
    TypeTokens(params) + [Counter(|params|)]
  }

  /** `DefaultHasher` as the calc functions use it: a fresh hasher
      (`get_hasher`) that values are fed into one by one (`x.hash(s)`) and
      that is finished once (`s.finish()`). The model records the fed
      tokens; `digest` stands for the SipHash computation over them. */
  class DefaultHasher {
    var written: seq<Token>
    const digest: seq<Token> -> bv64

    /** `get_hasher()`: a hasher that has been fed nothing. */
    constructor (digest: seq<Token> -> bv64)
      ensures written == [] && this.digest == digest
    {
      written := [];
      this.digest := digest;
    }

    /** `t.hash(s)`: feed one more token. */
    method Feed(t: Token)
      modifies this
      ensures written == old(written) + [t]
    {
      written := written + [t];
    }

    /** `s.finish()`: the key of everything fed so far. */
    function Finish(): bv64
      reads this
    {
      digest(written)
    }
  }

  /** `calc_qualified_var_hash`. The loop is the iterator chain
      `inspect(|_| len += 1).skip(1).for_each(hash)`: `inspect` sits
      before `skip`, so `len` counts every module, the skipped one included. */
  method CalcQualifiedVarHash(modules: seq<string>, varName: string, digest: seq<Token> -> bv64)
    returns (key: bv64)
    ensures key == digest(VarKeyTokens(modules, varName))
  {
    var s := new DefaultHasher(digest);
    var len := 0;
    var i := 0;
    while i < |modules|
      invariant 0 <= i <= |modules|
      invariant len == i
      invariant |s.written| == if i == 0 then 0 else i - 1
      invariant forall k :: 0 <= k < |s.written| ==> s.written[k] == Str(modules[k + 1])
    {
      len := len + 1;
      if i >= 1 {
        s.Feed(Str(modules[i]));
      }
      i := i + 1;
    }
    assert s.written == NameTokens(Skip1(modules));
    s.Feed(Counter(len));
    s.Feed(Str(varName));
    assert s.written == VarKeyTokens(modules, varName);
    key := s.Finish();
  }

  /** `calc_qualified_fn_hash`: the same module walk as the variable form,
      then the function name and the parameter count. */
  method CalcQualifiedFnHash(modules: seq<string>, fnName: string, num: nat, digest: seq<Token> -> bv64)
    returns (key: bv64)
    ensures key == digest(FnKeyTokens(modules, fnName, num))
  {
    var s := new DefaultHasher(digest);
    var len := 0;
    var i := 0;
    while i < |modules|
      invariant 0 <= i <= |modules|
      invariant len == i
      invariant |s.written| == if i == 0 then 0 else i - 1
      invariant forall k :: 0 <= k < |s.written| ==> s.written[k] == Str(modules[k + 1])
    {
      len := len + 1;
      if i >= 1 {
        s.Feed(Str(modules[i]));
      }
      i := i + 1;
    }
    assert s.written == NameTokens(Skip1(modules));
    s.Feed(Counter(len));
    s.Feed(Str(fnName));
    s.Feed(Usize(num));
    assert s.written == FnKeyTokens(modules, fnName, num);
    key := s.Finish();
  }

  /** `calc_fn_hash`: the qualified function hash with no modules at all. */
  method CalcFnHash(fnName: string, num: nat, digest: seq<Token> -> bv64) returns (key: bv64)
    ensures key == digest(FnKeyTokens([], fnName, num))
    ensures key == digest([Counter(0), Str(fnName), Usize(num)])
  {
    key := CalcQualifiedFnHash([], fnName, num, digest);
    assert FnKeyTokens([], fnName, num) == [Counter(0), Str(fnName), Usize(num)];
  }

  /** `calc_fn_params_hash`: here `inspect` is not followed by `skip`, so
      every type is both counted and hashed. */
  method CalcFnParamsHash(params: seq<TypeId>, digest: seq<Token> -> bv64) returns (key: bv64)
    ensures key == digest(ParamsKeyTokens(params))
  {
    var s := new DefaultHasher(digest);
    var len := 0;
    var i := 0;
    while i < |params|
      invariant 0 <= i <= |params|
      invariant len == i
      invariant s.written == TypeTokens(params[..i])
    {
      len := len + 1;
      s.Feed(TypeTok(params[i]));
      i := i + 1;
      assert TypeTokens(params[..i]) == TypeTokens(params[..i - 1]) + [TypeTok(params[i - 1])];
    }
    assert params[..i] == params;
    s.Feed(Counter(len));
    key := s.Finish();
  }

  /** `combine_hashes`. */
  function CombineHashes(a: bv64, b: bv64): bv64
  {
    a ^ b
  }

  // ---------------------------------------------------------------------
  // Properties of the token streams
  // ---------------------------------------------------------------------

  /** Name tokens determine the names. */
  lemma NameTokensInjective(a: seq<string>, b: seq<string>)
    ensures NameTokens(a) == NameTokens(b) <==> a == b
  {
  }

  /** Where the counter goes and what it counts: after exactly the hashed
      module names (all modules but the first), the counter holds the number
      of ALL modules, so for a non-empty path it is one more than the number
      of names hashed. The variable name comes last. */
  lemma VarKeyLayout(modules: seq<string>, varName: string)
    ensures var t := VarKeyTokens(modules, varName);
      var k := |Skip1(modules)|;
      && k == (if |modules| == 0 then 0 else |modules| - 1)
      && |t| == k + 2
      && (forall j :: 0 <= j < k ==> t[j] == Str(modules[j + 1]))
      && t[k] == Counter(|modules|)
      && t[k + 1] == Str(varName)
  {
  }

  /** The same layout for the function key: module names, the counter of
      all modules, the function name, the parameter count. */
  lemma FnKeyLayout(modules: seq<string>, fnName: string, num: nat)
    ensures var t := FnKeyTokens(modules, fnName, num);
      var k := |Skip1(modules)|;
      && k == (if |modules| == 0 then 0 else |modules| - 1)
      && |t| == k + 3
      && (forall j :: 0 <= j < k ==> t[j] == Str(modules[j + 1]))
      && t[k] == Counter(|modules|)
      && t[k + 1] == Str(fnName)
      && t[k + 2] == Usize(num)
  {
  }

  /** The variable key's token stream is equal for two inputs exactly when
      the paths have the same length and agree after the first segment, and
      the variable names agree. */
  lemma VarKeyTokensInjective(m1: seq<string>, v1: string, m2: seq<string>, v2: string)
    ensures VarKeyTokens(m1, v1) == VarKeyTokens(m2, v2)
            <==> |m1| == |m2| && Skip1(m1) == Skip1(m2) && v1 == v2
  {
    var t1, t2 := VarKeyTokens(m1, v1), VarKeyTokens(m2, v2);
    if t1 == t2 {
      var k := |Skip1(m1)|;
      assert |Skip1(m2)| == k;
      assert t1[k] == Counter(|m1|) && t2[k] == Counter(|m2|);
      assert t1[k + 1] == Str(v1) && t2[k + 1] == Str(v2);
      assert t1[..k] == NameTokens(Skip1(m1));
      assert t2[..k] == NameTokens(Skip1(m2));
      NameTokensInjective(Skip1(m1), Skip1(m2));
    }
  }

  /** The function key's token stream is equal for two inputs exactly when
      the paths have the same length and agree after the first segment, and
      both the names and the parameter counts agree. */
  lemma FnKeyTokensInjective(m1: seq<string>, f1: string, n1: nat, m2: seq<string>, f2: string, n2: nat)
    ensures FnKeyTokens(m1, f1, n1) == FnKeyTokens(m2, f2, n2)
            <==> |m1| == |m2| && Skip1(m1) == Skip1(m2) && f1 == f2 && n1 == n2
  {
    var t1, t2 := FnKeyTokens(m1, f1, n1), FnKeyTokens(m2, f2, n2);
    if t1 == t2 {
      var k := |Skip1(m1)|;
      assert |Skip1(m2)| == k;
      assert t1[k] == Counter(|m1|) && t2[k] == Counter(|m2|);
      assert t1[k + 1] == Str(f1) && t2[k + 1] == Str(f2);
      assert t1[k + 2] == Usize(n1) && t2[k + 2] == Usize(n2);
      assert t1[..k] == NameTokens(Skip1(m1));
      assert t2[..k] == NameTokens(Skip1(m2));
      NameTokensInjective(Skip1(m1), Skip1(m2));
    }
  }

  /** Root skip for variables: two paths that differ only in their first
      segment give the same token stream, and hence the same key for every
      digest. */
  lemma VarRootSegmentIgnored(m1: seq<string>, m2: seq<string>, varName: string, digest: seq<Token> -> bv64)
    requires |m1| == |m2| > 0 && m1[1..] == m2[1..]
    ensures VarKeyTokens(m1, varName) == VarKeyTokens(m2, varName)
    ensures digest(VarKeyTokens(m1, varName)) == digest(VarKeyTokens(m2, varName))
  {
  }

  /** Root skip for functions: two paths that differ only in their first
      segment give the same token stream, and hence the same key for every
      digest. */
  lemma FnRootSegmentIgnored(m1: seq<string>, m2: seq<string>, fnName: string, num: nat, digest: seq<Token> -> bv64)
    requires |m1| == |m2| > 0 && m1[1..] == m2[1..]
    ensures FnKeyTokens(m1, fnName, num) == FnKeyTokens(m2, fnName, num)
    ensures digest(FnKeyTokens(m1, fnName, num)) == digest(FnKeyTokens(m2, fnName, num))
  {
  }

  /** Two paths of the same length that differ in any segment after the
      first give different token streams. */
  lemma LaterSegmentMatters(m1: seq<string>, m2: seq<string>, i: nat, name: string, num: nat)
    requires 1 <= i < |m1| == |m2| && m1[i] != m2[i]
    ensures VarKeyTokens(m1, name) != VarKeyTokens(m2, name)
    ensures FnKeyTokens(m1, name, num) != FnKeyTokens(m2, name, num)
  {
    assert Skip1(m1)[i - 1] != Skip1(m2)[i - 1];
    VarKeyTokensInjective(m1, name, m2, name);
    FnKeyTokensInjective(m1, name, num, m2, name, num);
  }

  /** Arity sensitivity: function inputs that differ only in the parameter
      count give different token streams. */
  lemma ParamCountMatters(modules: seq<string>, fnName: string, n1: nat, n2: nat)
    requires n1 != n2
    ensures FnKeyTokens(modules, fnName, n1) != FnKeyTokens(modules, fnName, n2)
  {
    FnKeyTokensInjective(modules, fnName, n1, modules, fnName, n2);
  }

  /** The parameter-types token stream determines the ordered list of types. */
  lemma ParamsKeyTokensInjective(p1: seq<TypeId>, p2: seq<TypeId>)
    ensures ParamsKeyTokens(p1) == ParamsKeyTokens(p2) <==> p1 == p2
  {
    if ParamsKeyTokens(p1) == ParamsKeyTokens(p2) {
      assert |p1| == |p2|;
      forall i | 0 <= i < |p1| ensures p1[i] == p2[i] {
        assert ParamsKeyTokens(p1)[i] == TypeTok(p1[i]);
        assert ParamsKeyTokens(p2)[i] == TypeTok(p2[i]);
      }
    }
  }

  // ---------------------------------------------------------------------
  // XOR algebra of combine_hashes
  // ---------------------------------------------------------------------

  /** `combine_hashes` is commutative. */
  lemma CombineCommutative(a: bv64, b: bv64)
    ensures CombineHashes(a, b) == CombineHashes(b, a)
  {
  }

  /** `combine_hashes` is associative. */
  lemma CombineAssociative(a: bv64, b: bv64, c: bv64)
    ensures CombineHashes(CombineHashes(a, b), c) == CombineHashes(a, CombineHashes(b, c))
  {
  }

  /** Combining a key with itself cancels it; combining with 0 changes
      nothing; combining twice with the same key undoes the first. */
  lemma CombineCancels(a: bv64, b: bv64)
    ensures CombineHashes(a, a) == 0
    ensures CombineHashes(a, 0) == a
    ensures CombineHashes(CombineHashes(a, b), b) == a
  {
  }

  // ---------------------------------------------------------------------
  // StraightHasher
  // ---------------------------------------------------------------------

  /** `u64::from_ne_bytes`, with the byte order fixed to little-endian. */
  function FromLeBytes(bytes: seq<bv8>): bv64
    requires |bytes| == 8
  {
    (bytes[0] as bv64)
    | ((bytes[1] as bv64) << 8)
    | ((bytes[2] as bv64) << 16)
    | ((bytes[3] as bv64) << 24)
    | ((bytes[4] as bv64) << 32)
    | ((bytes[5] as bv64) << 40)
    | ((bytes[6] as bv64) << 48)
    | ((bytes[7] as bv64) << 56)
  }

  /** The 8 little-endian bytes a `u64` hashes as (`write_u64`). */
  function LeBytes(v: bv64): (r: seq<bv8>)
    ensures |r| == 8
  {
    [ (v & 0xFF) as bv8,
      ((v >> 8) & 0xFF) as bv8,
      ((v >> 16) & 0xFF) as bv8,
      ((v >> 24) & 0xFF) as bv8,
      ((v >> 32) & 0xFF) as bv8,
      ((v >> 40) & 0xFF) as bv8,
      ((v >> 48) & 0xFF) as bv8,
      ((v >> 56) & 0xFF) as bv8 ]
  }

  /** Decoding the encoding of a value gives the value back. */
  lemma FromLeBytesOfLeBytes(v: bv64)
    ensures FromLeBytes(LeBytes(v)) == v
  {
  }

  /** Every 8-byte input is the encoding of the value it decodes to. */
  lemma LeBytesOfFromLeBytes(bytes: seq<bv8>)
    requires |bytes| == 8
    ensures LeBytes(FromLeBytes(bytes)) == bytes
  {
  }

  /** How a `write` ended: normally, or by the failed length assertion,
      whose panic carries the assertion's message. */
  datatype Completion = Completed | Panicked(message: string)

  /** `StraightHasher`: a hasher that takes one pre-computed `u64` and
      returns it as the hash. */
  class StraightHasher {
    var state: bv64

    constructor (state: bv64)
      ensures this.state == state
    {
      this.state := state;
    }

    /** `finish`: the last value written, or the initial state. */
    function Finish(): bv64
      reads this
    {
      state
    }

    /** `write`: accepts exactly 8 bytes and replaces the state with the
        value they encode; any other length fails the assertion, and the
        panic carries its message (the panic text also shows both lengths,
        which is not modelled). */
    method Write(bytes: seq<bv8>) returns (c: Completion)
      modifies this
      ensures c == Completed <==> |bytes| == 8
      ensures c.Panicked? ==> c.message == "StraightHasher can only hash u64 values"
      ensures |bytes| == 8 ==> state == FromLeBytes(bytes)
      ensures |bytes| != 8 ==> state == old(state)
    {
      if |bytes| != 8 {
        return Panicked("StraightHasher can only hash u64 values");
      }
      state := FromLeBytes(bytes);
      c := Completed;
    }
  }

  /** `StraightHasherBuilder`, a unit struct. */
  datatype StraightHasherBuilder = StraightHasherBuilder {
    /** `build_hasher`: every hasher starts from 42. */
    method BuildHasher() returns (h: StraightHasher)
      ensures fresh(h) && h.Finish() == 42
    {
      h := new StraightHasher(42);
    }
  }

  /** Hashing a `u64` key through a hasher from `StraightHasherBuilder`:
      `write_u64` writes the 8 bytes of the key, and `finish` gives the key
      itself back. */
  method StraightHashU64(v: bv64) returns (key: bv64)
    ensures key == v
  {
    var builder := StraightHasherBuilder;
    var h := builder.BuildHasher();
    var c := h.Write(LeBytes(v));
    FromLeBytesOfLeBytes(v);
    key := h.Finish();
  }
}
