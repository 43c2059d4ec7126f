/**
 * Pure definitions that specify what the opcode handlers read from and
 * leave on the operand stack: MAKE_FUNCTION's flag decoding, UNPACK_EX's
 * three-part split, the dicts BUILD_MAP, BUILD_CONST_KEY_MAP,
 * BUILD_MAP_UNPACK and CALL_FUNCTION_KW build, name resolution, and the
 * renaming of comprehension arguments in Function.__call__.
 */
module Effects {
  import opened PyList
  import opened Objects

  // ---------------------------------------------------------------- MAKE_FUNCTION

  /** Which optional parts MAKE_FUNCTION pops. */
  datatype Parts = Parts(closure: bool, annotations: bool, kwDefaults: bool, posDefaults: bool)

  /** The flag tests of MAKE_FUNCTION: `>= 8`, `>= 4`, `>= 2`, `>= 1`, each subtracting when it holds. */
  function DecodeFlags(flag: int): Parts {
    var c := flag >= 8;
    var f1 := if c then flag - 8 else flag;
    var a := f1 >= 4;
    var f2 := if a then f1 - 4 else f1;
    var k := f2 >= 2;
    var f3 := if k then f2 - 2 else f2;
    Parts(c, a, k, f3 >= 1)
  }

  function Count(p: Parts): nat {
    (if p.closure then 1 else 0) + (if p.annotations then 1 else 0)
    + (if p.kwDefaults then 1 else 0) + (if p.posDefaults then 1 else 0)
  }

  /** How many items MAKE_FUNCTION pops: name, code and the optional parts. */
  function Arity(flag: int): nat {
    2 + Count(DecodeFlags(flag))
  }

  /**
   * For a four-bit flag the subtractive tests read exactly the bits:
   * 8 closure, 4 annotations, 2 keyword defaults, 1 positional defaults,
   * so MAKE_FUNCTION pops 2 items plus one per set bit.
   */
  lemma FlagBits(flag: int)
    requires 0 <= flag < 16
    ensures DecodeFlags(flag) == Parts(flag / 8 % 2 == 1, flag / 4 % 2 == 1, flag / 2 % 2 == 1, flag % 2 == 1)
    ensures Arity(flag) == 2 + flag / 8 % 2 + flag / 4 % 2 + flag / 2 % 2 + flag % 2
  {
  }

  /** A flag of 15 or more passes every test, so all four parts are popped. */
  lemma LargeFlagPopsAll(flag: int)
    requires flag >= 15
    ensures DecodeFlags(flag) == Parts(true, true, true, true) && Arity(flag) == 6
  {
  }

  /**
   * The function MAKE_FUNCTION builds from a stack `s`: name from the top,
   * code below it, then closure, annotations, keyword defaults and
   * positional defaults, each only when its flag part is set; the absent
   * ones are `()`, `{}`, `{}` and `()`.
   */
  function BuiltFunction(s: seq<Value>, flag: int): (fv: FunctionValue)
    requires |s| >= Arity(flag)
  {
    var n := |s|;
    var d := DecodeFlags(flag);
    var ic := n - 3;
    var ia := ic - (if d.closure then 1 else 0);
    var ik := ia - (if d.annotations then 1 else 0);
    var ip := ik - (if d.kwDefaults then 1 else 0);
    FunctionValue(
      s[n - 1],
      s[n - 2],
      if d.posDefaults then s[ip] else VTuple([]),
      if d.kwDefaults then s[ik] else VDict(map[]),
      if d.annotations then s[ia] else VDict(map[]),
      if d.closure then s[ic] else VTuple([]))
  }

  /** With every part present the pop order is name, code, closure, annotations, kw-defaults, pos-defaults. */
  lemma AllPartsOrder(s: seq<Value>)
    requires |s| >= 6
    ensures var n := |s|;
      BuiltFunction(s, 15) == FunctionValue(s[n - 1], s[n - 2], s[n - 6], s[n - 5], s[n - 4], s[n - 3])
  {
    FlagBits(15);
  }

  /** With no flag only name and code are popped and every part takes its default. */
  lemma NoPartsDefaults(s: seq<Value>)
    requires |s| >= 2
    ensures Arity(0) == 2
    ensures BuiltFunction(s, 0) == FunctionValue(s[|s| - 1], s[|s| - 2], VTuple([]), VDict(map[]), VDict(map[]), VTuple([]))
  {
  }

  /**
   * The checks Function.__init__ makes of the parts MAKE_FUNCTION popped:
   * reading `code.co_consts` needs a code object, the closure must be
   * iterable, types.FunctionType wants one closure item per free variable
   * of the code, and its `__name__` must be set to a string.
   */
  function FunctionInit(elements: Value -> Result<seq<Value>>, fv: FunctionValue): (r: Result<FunctionValue>)
    ensures r.Ok? <==> (fv.code.VCode? && elements(fv.closure).Ok? &&
                        |elements(fv.closure).value| == |fv.code.code.freevars| && fv.name.VStr?)
    ensures r.Ok? ==> r.value == fv
    ensures !fv.code.VCode? ==> r == Err(AttributeError("co_consts"))
  {
    if !fv.code.VCode? then Err(AttributeError("co_consts"))
    else
      var cells :- elements(fv.closure);
      if |cells| != |fv.code.code.freevars| then Err(ValueError("closure length"))
      else if !fv.name.VStr? then Err(TypeError("__name__ must be set to a string object"))
      else Ok(fv)
  }

  /**
   * Below flag 8 no closure is popped and the closure is `()`, so
   * MAKE_FUNCTION rejects a code object that has free variables.
   */
  lemma ClosureRequired(elements: Value -> Result<seq<Value>>, s: seq<Value>, flag: int)
    requires flag < 8 && |s| >= Arity(flag) && elements(VTuple([])) == Ok([])
    requires s[|s| - 2].VCode? && s[|s| - 2].code.freevars != []
    ensures FunctionInit(elements, BuiltFunction(s, flag)).Err?
  {
  }

  // ---------------------------------------------------------------- UNPACK_EX

  /**
   * What UNPACK_EX pushes for the popped sequence `q`: with `L` the list
   * reversed, before = argval % 256 and after = argval // 256, it pushes
   * `L[:after]`, then the list `L[after:after+len-after-before]` reversed
   * back, then `L[-before:]`.
   */
  function UnpackExPushed(q: seq<Value>, argval: int): seq<Value> {
    Unpacked(q, argval % 256, argval / 256)
  }

  function Unpacked(q: seq<Value>, before: int, after: int): seq<Value> {
    var l := Reverse(q);
    var middle := |l| - after - before;
    Upto(l, after) + [VList(Reverse(Slice(l, after, after + middle)))] + From(l, -before)
  }

  /** `L[:after]` of the reversed list is the last `after` items reversed. */
  lemma {:induction false} UnpackedFront(q: seq<Value>, after: nat)
    requires after <= |q|
    ensures Upto(Reverse(q), after) == Reverse(q[|q| - after..])
  {
    ReversePrefix(q, after);
  }

  /** The starred part, reversed back, is the items between the leading and trailing targets in order. */
  lemma {:induction false} UnpackedMiddle(q: seq<Value>, before: nat, after: nat)
    requires before + after <= |q|
    ensures var n := |q|; Reverse(Slice(Reverse(q), after, after + (n - after - before))) == q[before..n - after]
  {
    var n, l := |q|, Reverse(q);
    var m := q[..n - after];
    ReverseSuffix(q, after);
    assert Slice(l, after, after + (n - after - before)) == Reverse(m)[..n - after - before];
    ReversePrefix(m, n - after - before);
    assert m[before..] == q[before..n - after];
    ReverseReverse(q[before..n - after]);
  }

  /** `L[-before:]` of the reversed list is the first `before` items reversed. */
  lemma {:induction false} UnpackedBack(q: seq<Value>, before: nat)
    requires 1 <= before <= |q|
    ensures From(Reverse(q), -(before as int)) == Reverse(q[..before])
  {
    NegativeSuffix(Reverse(q), before);
    ReverseSuffix(q, |q| - before);
  }

  /**
   * With at least one leading target and enough items, UNPACK_EX leaves
   * the trailing items reversed, then the starred middle as a list, then
   * the leading items reversed, so q[0] ends on top.
   */
  lemma {:induction false} UnpackExSplits(q: seq<Value>, before: nat, after: nat)
    requires 1 <= before && before + after <= |q|
    ensures var n := |q|;
      Unpacked(q, before, after) == Reverse(q[n - after..]) + [VList(q[before..n - after])] + Reverse(q[..before])
  {
    UnpackedFront(q, after);
    UnpackedMiddle(q, before, after);
    UnpackedBack(q, before);
  }

  /**
   * With no leading target `L[-0:]` is the whole reversed list, so the
   * entire sequence is pushed again after the starred part.
   */
  lemma {:induction false} UnpackExNoLeading(q: seq<Value>, after: nat)
    requires after <= |q|
    ensures var n := |q|;
      Unpacked(q, 0, after) == Reverse(q[n - after..]) + [VList(q[..n - after])] + Reverse(q)
  {
    UnpackedFront(q, after);
    UnpackedMiddle(q, 0, after);
    NegativeZeroSuffix(Reverse(q));
  }

  /**
   * The compiler packs the leading count into the low byte of argval and
   * the trailing count above it; UNPACK_EX decodes exactly those counts.
   */
  lemma UnpackExArg(q: seq<Value>, before: int, after: int)
    requires 0 <= before < 256 && 0 <= after
    ensures UnpackExPushed(q, before + 256 * after) == Unpacked(q, before, after)
  {
    var argval := before + 256 * after;
    assert argval / 256 == after && argval % 256 == before by {
      assert argval == 256 * after + before;
    }
  }

  /** UNPACK_SEQUENCE pushes the items reversed, so the first item is the new top of stack. */
  lemma UnpackSequenceTop(q: seq<Value>)
    requires q != []
    ensures Reverse(q)[|q| - 1] == q[0]
  {
    ReverseAt(q, |q| - 1);
  }

  // ---------------------------------------------------------------- slices of the stack

  /** The items BUILD_LIST and BUILD_LIST_UNPACK take: `stack[-n:]`, or none at all when n is 0. */
  function Taken(s: seq<Value>, n: int): seq<Value> {
    if n == 0 then [] else From(s, -n)
  }

  /** What `del stack[-n:]` leaves below them, or the whole stack when n is 0. */
  function Kept(s: seq<Value>, n: int): seq<Value> {
    if n == 0 then s else Upto(s, -n)
  }

  /**
   * Taking splits the stack: the top n items when there are that many,
   * the whole stack when n exceeds its depth.
   */
  lemma TakenKept(s: seq<Value>, n: int)
    ensures Kept(s, n) + Taken(s, n) == s
    ensures 1 <= n <= |s| ==> Kept(s, n) == s[..|s| - n] && Taken(s, n) == s[|s| - n..]
    ensures n >= 1 && n >= |s| ==> Kept(s, n) == [] && Taken(s, n) == s
  {
    UptoFrom(s, -n);
    if 1 <= n <= |s| {
      NegativeSuffix(s, n);
    }
  }

  // ---------------------------------------------------------------- dict building

  /**
   * The dict BUILD_MAP builds from the `2n` topmost items `t` (deepest
   * first): pairs are inserted from the top down, so where a key repeats
   * the deepest pair is the one kept.
   */
  function PairsMap(t: seq<Value>): map<Value, Value>
    decreases |t|
  {
    if |t| < 2 then map[] else PairsMap(t[2..])[t[0] := t[1]]
  }

  /** Every key comes from a key position, and the value kept is the one paired with the first (deepest) occurrence. */
  lemma {:induction false} PairsMapDeepestWins(t: seq<Value>, i: nat)
    requires |t| % 2 == 0 && 2 * i < |t|
    requires forall j | 0 <= j < i :: t[2 * j] != t[2 * i]
    ensures t[2 * i] in PairsMap(t) && PairsMap(t)[t[2 * i]] == t[2 * i + 1]
    decreases |t|
  {
    if i > 0 {
      var u := t[2..];
      forall j | 0 <= j < i - 1 ensures u[2 * j] != u[2 * (i - 1)] {
        assert u[2 * j] == t[2 * (j + 1)];
      }
      PairsMapDeepestWins(u, i - 1);
      assert u[2 * (i - 1)] == t[2 * i] && u[2 * (i - 1) + 1] == t[2 * i + 1];
      assert t[2 * 0] != t[2 * i];
    }
  }

  lemma {:induction false} PairsMapKeys(t: seq<Value>, k: Value)
    requires |t| % 2 == 0
    ensures k in PairsMap(t) <==> exists j :: 0 <= j < |t| / 2 && t[2 * j] == k
    decreases |t|
  {
    if |t| >= 2 {
      var u := t[2..];
      PairsMapKeys(u, k);
      if k in PairsMap(t) {
        if k == t[0] {
          assert t[2 * 0] == k;
        } else {
          var j :| 0 <= j < |u| / 2 && u[2 * j] == k;
          assert t[2 * (j + 1)] == k;
        }
      } else {
        forall j | 0 <= j < |t| / 2 ensures t[2 * j] != k {
          if j > 0 {
            assert t[2 * j] == u[2 * (j - 1)];
          }
        }
      }
    }
  }

  /** `{k: v for (k, v) in zip(ks, vs)}` for equal lengths: later pairs win. */
  function ZipMap<K, V>(ks: seq<K>, vs: seq<V>): map<K, V>
    requires |ks| == |vs|
    decreases |ks|
  {
    if ks == [] then map[]
    else ZipMap(ks[..|ks| - 1], vs[..|vs| - 1])[ks[|ks| - 1] := vs[|vs| - 1]]
  }

  /** `zip` stops at the shorter list. */
  function Zip<K, V>(ks: seq<K>, vs: seq<V>): map<K, V> {
    var m := if |ks| <= |vs| then |ks| else |vs|;
    ZipMap(ks[..m], vs[..m])
  }

  /**
   * BUILD_CONST_KEY_MAP's loop: taking one more value from under the `i`
   * already taken (the deepest last) binds the next reversed key to it.
   */
  lemma {:induction false} ZipMapReversedStep(rk: seq<Value>, below: seq<Value>, i: nat)
    requires i < |rk| && i < |below|
    ensures var k := |below| - i;
      ZipMap(rk[..i + 1], Reverse(below[k - 1..])) == ZipMap(rk[..i], Reverse(below[k..]))[rk[i] := below[k - 1]]
  {
    var k := |below| - i;
    var w := Reverse(below[k - 1..]);
    assert below[k - 1..][1..] == below[k..];
    assert w == Reverse(below[k..]) + [below[k - 1]];
    assert rk[..i + 1][..i] == rk[..i] && w[..i] == Reverse(below[k..]);
  }

  /** Zipping two lists of one length pairs every item. */
  lemma {:induction false} ZipEqualLengths<K, V>(ks: seq<K>, vs: seq<V>)
    requires |ks| == |vs|
    ensures Zip(ks, vs) == ZipMap(ks, vs)
  {
    assert ks[..|ks|] == ks && vs[..|vs|] == vs;
  }

  /** The keys are exactly the given ones and each takes the value of its last occurrence. */
  lemma {:induction false} ZipMapLast<K, V>(ks: seq<K>, vs: seq<V>, j: nat)
    requires |ks| == |vs| && j < |ks|
    requires forall l | j < l < |ks| :: ks[l] != ks[j]
    ensures ks[j] in ZipMap(ks, vs) && ZipMap(ks, vs)[ks[j]] == vs[j]
    decreases |ks|
  {
    var n := |ks|;
    if j < n - 1 {
      ZipMapLast(ks[..n - 1], vs[..n - 1], j);
    }
  }

  lemma {:induction false} ZipMapKeys<K, V>(ks: seq<K>, vs: seq<V>)
    requires |ks| == |vs|
    ensures ZipMap(ks, vs).Keys == set k | k in ks
    decreases |ks|
  {
    if ks != [] {
      var n := |ks|;
      ZipMapKeys(ks[..n - 1], vs[..n - 1]);
      assert ks == ks[..n - 1] + [ks[n - 1]];
    }
  }

  /** `res.update(m)` for each map in turn. */
  function MergeMaps(ms: seq<map<Value, Value>>): map<Value, Value>
    decreases |ms|
  {
    if ms == [] then map[] else MergeMaps(ms[..|ms| - 1]) + ms[|ms| - 1]
  }

  /** A key of the merge is bound as by the last map that has it. */
  lemma {:induction false} MergeMapsLast(ms: seq<map<Value, Value>>, j: nat, k: Value)
    requires j < |ms| && k in ms[j]
    requires forall l | j < l < |ms| :: k !in ms[l]
    ensures k in MergeMaps(ms) && MergeMaps(ms)[k] == ms[j][k]
    decreases |ms|
  {
    if j < |ms| - 1 {
      MergeMapsLast(ms[..|ms| - 1], j, k);
    }
  }

  /**
   * BUILD_CONST_KEY_MAP assigns the keys in reverse, pairing the last key
   * with the top value; where a key repeats, its first occurrence wins.
   */
  lemma {:induction false} ConstKeyMapFirstWins(ks: seq<Value>, vs: seq<Value>, j: nat)
    requires |ks| == |vs| && j < |ks|
    requires forall l | 0 <= l < j :: ks[l] != ks[j]
    ensures ks[j] in ZipMap(Reverse(ks), Reverse(vs)) && ZipMap(Reverse(ks), Reverse(vs))[ks[j]] == vs[j]
  {
    var m := |ks|;
    var rk, rv := Reverse(ks), Reverse(vs);
    ReverseAt(ks, m - 1 - j);
    ReverseAt(vs, m - 1 - j);
    forall l | m - 1 - j < l < m ensures rk[l] != rk[m - 1 - j] {
      ReverseAt(ks, l);
      assert rk[l] == ks[m - 1 - l];
    }
    ZipMapLast(rk, rv, m - 1 - j);
  }

  /** BUILD_MAP_UNPACK's `res.update(m)` over the popped mappings, left to right, stopping at the first host error. */
  function MergeAll(mapping: Value -> Result<map<Value, Value>>, vs: seq<Value>): Result<map<Value, Value>>
    decreases |vs|
  {
    if vs == [] then Ok(map[])
    else match MergeAll(mapping, vs[..|vs| - 1])
      case Err(e) => Err(e)
      case Ok(front) =>
        match mapping(vs[|vs| - 1])
        case Err(e) => Err(e)
        case Ok(back) => Ok(front + back)
  }

  /** When every operand is a mapping, the result is their merge, the later one winning on a shared key. */
  lemma {:induction false} MergeAllMerges(mapping: Value -> Result<map<Value, Value>>, vs: seq<Value>, ds: seq<map<Value, Value>>)
    requires |ds| == |vs|
    requires forall i | 0 <= i < |vs| :: mapping(vs[i]) == Ok(ds[i])
    ensures MergeAll(mapping, vs) == Ok(MergeMaps(ds))
    decreases |vs|
  {
    if vs != [] {
      MergeAllMerges(mapping, vs[..|vs| - 1], ds[..|ds| - 1]);
    }
  }

  lemma {:induction false} MergeAllErrSticky(mapping: Value -> Result<map<Value, Value>>, vs: seq<Value>, i: nat)
    requires i <= |vs| && MergeAll(mapping, vs[..i]).Err?
    ensures MergeAll(mapping, vs).Err?
    decreases |vs|
  {
    if i < |vs| {
      assert vs[..|vs| - 1][..i] == vs[..i];
      MergeAllErrSticky(mapping, vs[..|vs| - 1], i);
    } else {
      assert vs[..i] == vs;
    }
  }

  // ---------------------------------------------------------------- spreading

  /**
   * BUILD_*_UNPACK's accumulation `res += [*it]` over the popped
   * iterables, left to right, stopping at the first host error.
   */
  function Spread(elements: Value -> Result<seq<Value>>, its: seq<Value>): Result<seq<Value>>
    decreases |its|
  {
    if its == [] then Ok([])
    else match Spread(elements, its[..|its| - 1])
      case Err(e) => Err(e)
      case Ok(front) =>
        match elements(its[|its| - 1])
        case Err(e) => Err(e)
        case Ok(back) => Ok(front + back)
  }

  /** When every iterable lists its items, the result is their concatenation in stack order. */
  lemma {:induction false} SpreadConcatenates(elements: Value -> Result<seq<Value>>, its: seq<Value>, parts: seq<seq<Value>>)
    requires |parts| == |its|
    requires forall i | 0 <= i < |its| :: elements(its[i]) == Ok(parts[i])
    ensures Spread(elements, its) == Ok(Flatten(parts))
    decreases |its|
  {
    if its != [] {
      var n := |its|;
      SpreadConcatenates(elements, its[..n - 1], parts[..n - 1]);
      assert parts == parts[..n - 1] + [parts[n - 1]];
      FlattenSnoc(parts[..n - 1], parts[n - 1]);
    }
  }

  /** Spreading one more iterable adds its items, or stops at its error. */
  lemma {:induction false} SpreadStep(elements: Value -> Result<seq<Value>>, its: seq<Value>, i: nat)
    requires i < |its| && Spread(elements, its[..i]).Ok?
    ensures var front, x := Spread(elements, its[..i]).value, elements(its[i]);
      Spread(elements, its[..i + 1]) == if x.Ok? then Ok(front + x.value) else Err(x.error)
  {
    assert its[..i + 1][..i] == its[..i];
  }

  /** A host error on some iterable is the error of the whole accumulation. */
  lemma {:induction false} SpreadErrSticky(elements: Value -> Result<seq<Value>>, its: seq<Value>, i: nat)
    requires i <= |its| && Spread(elements, its[..i]).Err?
    ensures Spread(elements, its).Err?
    decreases |its|
  {
    if i < |its| {
      assert its[..|its| - 1][..i] == its[..i];
      SpreadErrSticky(elements, its[..|its| - 1], i);
    } else {
      assert its[..i] == its;
    }
  }

  function Flatten(parts: seq<seq<Value>>): seq<Value>
    decreases |parts|
  {
    if parts == [] then [] else parts[0] + Flatten(parts[1..])
  }

  lemma {:induction false} FlattenSnoc(parts: seq<seq<Value>>, last: seq<Value>)
    ensures Flatten(parts + [last]) == Flatten(parts) + last
    decreases |parts|
  {
    if parts != [] {
      assert (parts + [last])[1..] == parts[1..] + [last];
      FlattenSnoc(parts[1..], last);
    }
  }

  // ---------------------------------------------------------------- names

  /** LOAD_NAME's search: locals, then globals, then builtins. */
  function ResolveName(locals: map<string, Value>, globals: map<string, Value>, builtins: map<string, Value>, name: string): Option<Value> {
    if name in locals then Some(locals[name])
    else if name in globals then Some(globals[name])
    else if name in builtins then Some(builtins[name])
    else None
  }

  /** LOAD_GLOBAL's search: globals, then builtins. */
  function ResolveGlobal(globals: map<string, Value>, builtins: map<string, Value>, name: string): Option<Value> {
    if name in globals then Some(globals[name])
    else if name in builtins then Some(builtins[name])
    else None
  }

  /** LOAD_NAME agrees with LOAD_GLOBAL except where a local binding shadows. */
  lemma ResolveNameFallsBackToGlobal(l: map<string, Value>, g: map<string, Value>, b: map<string, Value>, name: string)
    ensures name !in l ==> ResolveName(l, g, b, name) == ResolveGlobal(g, b, name)
    ensures name in l ==> ResolveName(l, g, b, name) == Some(l[name])
    ensures ResolveName(l, g, b, name).None? <==> name !in l && name !in g && name !in b
  {
  }

  /** A name just stored in the locals is what LOAD_NAME finds next. */
  lemma StoreThenResolve(l: map<string, Value>, g: map<string, Value>, b: map<string, Value>, name: string, v: Value)
    ensures ResolveName(l[name := v], g, b, name) == Some(v)
  {
  }

  /** What LOAD_NAME pushes: the resolved value, or nothing at all. */
  function Pushed(o: Option<Value>): seq<Value> {
    if o.Some? then [o.value] else []
  }

  // ---------------------------------------------------------------- Function.__call__

  /** The prefix Function.__call__ renames in bound argument names. */
  const Magic := "implicit"

  /** `key.replace('implicit', '.')` */
  function Renamed(k: string): string {
    ReplaceAll(k, Magic, ".")
  }

  predicate IsMagic(k: string) {
    StartsWith(k, Magic)
  }

  lemma RenamedNotMagic(k: string)
    requires IsMagic(k)
    ensures !IsMagic(Renamed(k)) && Renamed(k) != k
  {
    ReplaceAllHead(k, Magic, ".");
    assert Renamed(k)[0] == '.';
  }

  /**
   * The loop of Function.__call__ over the bound arguments: every key
   * starting with "implicit" is replaced by its renamed form, which takes
   * its value (overwriting any binding already there); every other key
   * stays.  The keys are visited in an unspecified order, as dict order is
   * the host's.
   */
  method RenameImplicit(args: map<string, Value>) returns (r: map<string, Value>)
    ensures forall k | k in args && IsMagic(k) :: k !in r && Renamed(k) in r
    ensures forall k | k in r :: ((k in args && !IsMagic(k) && r[k] == args[k]) ||
      (exists j :: j in args && IsMagic(j) && Renamed(j) == k && r[k] == args[j]))
    ensures forall k | k in args && !IsMagic(k) && (forall j | j in args && IsMagic(j) :: Renamed(j) != k) :: k in r && r[k] == args[k]
  {
    forall k | IsMagic(k) ensures !IsMagic(Renamed(k)) {
      RenamedNotMagic(k);
    }
    r := args;
    var todo := args.Keys;
    while todo != {}
      invariant todo <= args.Keys
      invariant forall k | k in todo && IsMagic(k) :: k in r && r[k] == args[k]
      invariant forall k | k in args && IsMagic(k) && k !in todo :: k !in r && Renamed(k) in r
      invariant forall k | k in r :: ((k in args && r[k] == args[k] && (IsMagic(k) ==> k in todo)) ||
        (exists j :: j in args && IsMagic(j) && j !in todo && Renamed(j) == k && r[k] == args[j]))
      invariant forall k | k in args && !IsMagic(k) && (forall j | j in args && IsMagic(j) :: Renamed(j) != k) :: k in r && r[k] == args[k]
      decreases todo
    {
      var key :| key in todo;
      if IsMagic(key) {
        RenamedNotMagic(key);
        var newKey := Renamed(key);
        r := r[newKey := r[key]];
        r := r - {key};
      }
      todo := todo - {key};
    }
  }
}
