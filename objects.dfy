/**
 * The objects the interpreter works on: runtime values, decoded
 * instructions and code units, closure cells, name spaces and frames,
 * together with the pure definitions that specify how the instruction
 * array is laid out and how the construction opcodes read the operand
 * stack.
 */
module Objects {
  import opened PyList

  /** An unbounded identity for host objects the interpreter never looks into. */
  type HostId = nat

  /**
   * A runtime value.  The interpreter only builds and inspects the kinds
   * below; every other object of the host runtime (iterators, sets,
   * slices, modules, built-in callables, user objects) is a `VHost`.
   * Frames and cells are values too: LOAD_CLOSURE pushes a cell, and a
   * frame that falls off the end of its code is returned as its result.
   */
  datatype Value =
    | VNone
    | VBool(b: bool)
    | VInt(i: int)
    | VStr(s: string)
    | VList(items: seq<Value>)
    | VTuple(items: seq<Value>)
    | VDict(entries: map<Value, Value>)
    | VCode(code: Code)
    | VFunction(fn: FunctionValue)
    | VCell(cell: Cell)
    | VFrame(frame: Frame)
    | VHost(id: HostId)

  /**
   * The callable built by MAKE_FUNCTION.  Each part is whatever value
   * MAKE_FUNCTION popped for it (or its default when the flag bit is
   * clear), so each is kept as a `Value`.
   */
  datatype FunctionValue = FunctionValue(
    name: Value,
    code: Value,
    posDefaults: Value,
    kwDefaults: Value,
    annotations: Value,
    closure: Value)

  /** A compiled code unit: its decoded instructions and its cell and free variable names. */
  datatype Code = Code(
    name: string,
    instructions: seq<Instruction>,
    cellvars: seq<string>,
    freevars: seq<string>)

  /** The resolved operand of an instruction (`argval`). */
  datatype Arg =
    | NoArg
    | IntArg(n: int)
    | NameArg(name: string)
    | ConstArg(v: Value)

  datatype Instruction = Instruction(offset: nat, op: Opcode, arg: Arg)

  datatype UnaryOp = Positive | Negative | Not | Invert

  datatype BinaryOp =
    | Power | Multiply | MatrixMultiply | FloorDivide | TrueDivide | Modulo
    | Add | Subtract | Subscr | LShift | RShift | And | Xor | Or

  /** One constructor per opcode that has a handler; `Unknown` for every other opcode name. */
  datatype Opcode =
    | StoreName | StoreFast | StoreGlobal | StoreSubscr | StoreAttr | StoreDeref
    | SetupAnnotations | StoreAnnotation
    | LoadConst | LoadName | LoadFast | LoadGlobal | LoadAttr | LoadClosure
    | LoadDeref | LoadClassDeref | LoadBuildClass
    | DeleteAttr | DeleteFast | DeleteGlobal | DeleteName | DeleteSubscr | DeleteDeref
    | Unary(u: UnaryOp)
    | Binary(b: BinaryOp)
    | Inplace(ib: BinaryOp)
    | DupTop | DupTopTwo | PopTop | RotTwo | RotThree
    | CompareOp
    | PopJumpIfFalse | PopJumpIfTrue | JumpIfTrueOrPop | JumpIfFalseOrPop
    | JumpAbsolute | JumpForward
    | ForIter | GetIter
    | BuildList | BuildListUnpack | BuildTuple | BuildTupleUnpack
    | BuildTupleUnpackWithCall | BuildSet | BuildSetUnpack
    | BuildMap | BuildConstKeyMap | BuildMapUnpack
    | UnpackSequence | UnpackEx | BuildSlice | BuildString
    | ListAppend | SetAdd | MapAdd
    | SetupLoop | BreakLoop | ContinueLoop | PopBlock
    | MakeFunction | CallFunction | CallFunctionKw | CallFunctionEx | ReturnValue
    | ImportName | ImportFrom | ImportStar
    | ExtendedArg | PopExcept | RaiseVarargs
    | Unknown(opname: string)

  /** The dispatch loop renames every INPLACE_* opcode to the BINARY_* one. */
  function Canonical(op: Opcode): (c: Opcode)
    ensures !c.Inplace?
    ensures op.Inplace? ==> c == Binary(op.ib)
    ensures !op.Inplace? ==> c == op
  {
    if op.Inplace? then Binary(op.ib) else op
  }

  /** A loop marker on the block stack. */
  datatype Block = Block(begin: int, end: int)

  /** What a handler tells the dispatch loop. */
  datatype Flow = Proceed | Returned

  /** The exceptions the interpreter raises or lets through; none of them is caught inside it. */
  datatype VmError =
    | IndexError(what: string)
    | KeyError(key: string)
    | ValueError(what: string)
    | TypeError(what: string)
    | AttributeError(attr: string)
    | HostError(exc: Value)
    | Raised(exc: Value)
    | ReRaise
    | FuelExhausted
    | Unmodelled(what: string)

  datatype Result<+T> = Ok(value: T) | Err(error: VmError) {
    predicate IsFailure() { Err? }
    function PropagateFailure<U>(): Result<U>
      requires Err?
    {
      Err(error)
    }
    function Extract(): T
      requires Ok?
    {
      value
    }
  }

  /**
   * The host runtime's value operations, which the interpreter only
   * dispatches to.  Iteration is by value: `next` gives the advanced
   * iterator together with the item, or None at exhaustion.
   */
  datatype Host = Host(
    truthy: Value -> bool,
    unary: (UnaryOp, Value) -> Result<Value>,
    binary: (BinaryOp, Value, Value) -> Result<Value>,
    compare: (string, Value, Value) -> Result<Value>,
    getAttr: (Value, string) -> Result<Value>,
    setAttr: (Value, string, Value) -> Result<()>,
    delAttr: (Value, string) -> Result<()>,
    setItem: (Value, Value, Value) -> Result<()>,
    delItem: (Value, Value) -> Result<()>,
    iter: Value -> Result<Value>,
    next: Value -> Result<Option<(Value, Value)>>,
    elements: Value -> Result<seq<Value>>,
    reversed: Value -> Result<seq<Value>>,
    makeSet: seq<Value> -> Result<Value>,
    setAdd: (Value, Value) -> Result<Value>,
    makeSlice: seq<Value> -> Value,
    join: seq<Value> -> Result<Value>,
    mapping: Value -> Result<map<Value, Value>>,
    keywords: Value -> Result<map<string, Value>>,
    call: (Value, seq<Value>, map<string, Value>) -> Result<Value>,
    bind: (FunctionValue, seq<Value>, map<string, Value>) -> Result<map<string, Value>>)

  /**
   * `elements` lists what iterating a value gives (`[*x]`, `list(x)`);
   * `reversed` lists `reversed(x)`, which only a reversible sequence has.
   * The two agree on `v` when, if `v` can be reversed, it can also be
   * iterated and the reversed items are the items in reverse order.
   */
  predicate ReversesElements(host: Host, v: Value) {
    host.reversed(v).Ok? ==> host.elements(v).Ok? && host.reversed(v).value == Reverse(host.elements(v).value)
  }

  /** The operator names Frame.operators knows; COMPARE_OP with any other raises KeyError. */
  const CompareOps: set<string> := {"==", ">=", ">", "is", "is not", "<=", "<", "!=", "not", "in"}

  /** A single-slot mutable box shared by a defining frame and its closures. */
  class Cell {
    var value: Value

    constructor (v: Value)
      ensures value == v
    {
      value := v;
    }

    function Get(): Value
      reads this
    {
      value
    }

    method Set(v: Value)
      modifies this
      ensures value == v
    {
      value := v;
    }
  }

  /** A Python dict of name bindings (locals, globals); shared by reference. */
  class Namespace {
    var entries: map<string, Value>

    constructor (m: map<string, Value>)
      ensures entries == m
    {
      entries := m;
    }
  }

  /** The value a new cell for `v` starts with: the bound local, else None. */
  function Seed(locals: map<string, Value>, v: string): Value {
    if v in locals then locals[v] else VNone
  }

  /** The instruction array `init_instruction_set` builds, one instruction at a time. */
  function Layout(instrs: seq<Instruction>): (slots: seq<Option<Instruction>>)
    decreases |instrs|
  {
    if instrs == [] then []
    else Place(Layout(instrs[..|instrs| - 1]), instrs[|instrs| - 1])
  }

  /** One step of the layout loop: `[None] * (offset - len) + [instr]` appended. */
  function Place(slots: seq<Option<Instruction>>, instr: Instruction): seq<Option<Instruction>> {
    slots + Nones(instr.offset - |slots|) + [Some(instr)]
  }

  /** `[None] * k`, which is empty for k <= 0. */
  function Nones(k: int): (r: seq<Option<Instruction>>)
    ensures |r| == (if k < 0 then 0 else k)
    ensures forall i | 0 <= i < |r| :: r[i] == None
    decreases k
  {
    if k <= 0 then [] else Nones(k - 1) + [None]
  }

  predicate StrictlyIncreasing(instrs: seq<Instruction>) {
    forall i, j | 0 <= i < j < |instrs| :: instrs[i].offset < instrs[j].offset
  }

  /** No instruction of `instrs` has offset `k`. */
  predicate Gap(instrs: seq<Instruction>, k: int) {
    forall i | 0 <= i < |instrs| :: instrs[i].offset != k
  }

  /**
   * For strictly increasing offsets the array is one longer than the last
   * offset, every instruction sits at the index equal to its offset, and
   * every other slot is empty.
   */
  lemma {:induction false} LayoutPlacesByOffset(instrs: seq<Instruction>)
    requires StrictlyIncreasing(instrs)
    ensures |Layout(instrs)| == if instrs == [] then 0 else instrs[|instrs| - 1].offset + 1
    ensures forall i | 0 <= i < |instrs| :: instrs[i].offset < |Layout(instrs)| && Layout(instrs)[instrs[i].offset] == Some(instrs[i])
    ensures forall k | 0 <= k < |Layout(instrs)| && Gap(instrs, k) :: Layout(instrs)[k] == None
    decreases |instrs|
  {
    if instrs != [] {
      var n := |instrs|;
      var front := instrs[..n - 1];
      var last := instrs[n - 1];
      assert StrictlyIncreasing(front);
      LayoutPlacesByOffset(front);
      var s := Layout(front);
      assert n > 1 ==> |s| == front[n - 2].offset + 1 <= last.offset;
      assert |s| <= last.offset;
      var t := Layout(instrs);
      assert t == s + Nones(last.offset - |s|) + [Some(last)];
      assert |t| == last.offset + 1;
      forall i | 0 <= i < n
        ensures instrs[i].offset < |t| && t[instrs[i].offset] == Some(instrs[i])
      {
        if i < n - 1 {
          assert front[i] == instrs[i];
        }
      }
      forall k | 0 <= k < |t| && Gap(instrs, k)
        ensures t[k] == None
      {
        assert k != last.offset;
        if k < |s| {
          assert Gap(front, k) by {
            forall i | 0 <= i < |front| ensures front[i].offset != k {
              assert front[i] == instrs[i];
            }
          }
        }
      }
    }
  }

  /** The dispatch loop fetches an empty slot only where no instruction has that offset. */
  lemma EmptySlotIsGap(instrs: seq<Instruction>, k: nat)
    requires StrictlyIncreasing(instrs)
    requires k < |Layout(instrs)| && Layout(instrs)[k] == None
    ensures Gap(instrs, k)
  {
    LayoutPlacesByOffset(instrs);
    forall i | 0 <= i < |instrs| ensures instrs[i].offset != k {
      assert Layout(instrs)[instrs[i].offset] == Some(instrs[i]);
    }
  }

  /** The calling frame as a set, for frames that may have none. */
  function Caller(prev: Frame?): set<Frame> {
    if prev == null then {} else {prev}
  }

  /**
   * The cell-variable loop of Frame.__init__: one new cell per name, seeded
   * with the local binding or None, and the same cell stored into the
   * calling frame's table.
   */

  method CreateCells(names: seq<string>, locals: map<string, Value>, prev: Frame?) returns (table: map<string, Cell>)
    modifies Caller(prev)`cells
    ensures table.Keys == set v | v in names
    ensures forall v | v in table :: fresh(table[v]) && table[v].value == Seed(locals, v)
    ensures forall v, w | v in table && w in table && v != w :: table[v] != table[w]
    ensures prev != null ==> prev.cells == old(prev.cells) + table
  {
    table := map[];
    var i := 0;
    while i < |names|
      invariant 0 <= i <= |names|
      invariant table.Keys == set v | v in names[..i]
      invariant forall v | v in table :: fresh(table[v]) && table[v].value == Seed(locals, v)
      invariant forall v, w | v in table && w in table && v != w :: table[v] != table[w]
      invariant prev != null ==> prev.cells == old(prev.cells) + table
    {
      var name := names[i];
      var cell := new Cell(Seed(locals, name));
      ghost var before := table;
      assert forall v | v in before :: before[v] != cell;
      table := table[name := cell];
      if prev != null {
        assert old(prev.cells) + table == (old(prev.cells) + before)[name := cell];
        prev.cells := prev.cells[name := cell];
      }
      assert names[..i + 1] == names[..i] + [name];
      i := i + 1;
    }
    assert names[..i] == names;
  }

  /**
   * A frame: operand stack, block stack, instruction pointer, bindings and
   * cell table for one execution of a code unit.
   */
  class Frame {
    const code: Code
    var ip: int
    var stack: seq<Value>
    var blockStack: seq<Block>
    const locals: Namespace
    const globals: Namespace
    const prev: Frame?
    const builtins: map<string, Value>
    var cells: map<string, Cell>
    var instructionSet: seq<Option<Instruction>>

    /**
     * Frame.__init__ up to the free variables: every cell variable gets a
     * new cell seeded from the locals, and that same cell is published
     * into the calling frame's cell table.
     */
    constructor (code: Code, locals: Namespace, globals: Namespace, prev: Frame?, rootBuiltins: map<string, Value>)
      modifies Caller(prev)`cells
      ensures this.code == code && this.locals == locals && this.globals == globals && this.prev == prev
      ensures builtins == if prev != null then prev.builtins else rootBuiltins
      ensures ip == 0 && stack == [] && blockStack == [] && instructionSet == []
      ensures cells.Keys == set v | v in code.cellvars
      ensures forall v | v in cells :: fresh(cells[v]) && cells[v].value == Seed(locals.entries, v)
      ensures forall v, w | v in cells && w in cells && v != w :: cells[v] != cells[w]
      ensures prev != null ==> prev.cells == old(prev.cells) + cells
      ensures prev != this
    {
      this.code := code;
      this.locals := locals;
      this.globals := globals;
      this.prev := prev;
      builtins := if prev != null then prev.builtins else rootBuiltins;
      ip := 0;
      stack := [];
      blockStack := [];
      instructionSet := [];
      var table := CreateCells(code.cellvars, locals.entries, prev);
      cells := table;
    }

    /**
     * Frame.__init__ for the free variables: with a calling frame, each free
     * variable's entry is the caller's cell object itself; a name missing
     * from the caller's table raises KeyError.
     */
    method BindFreevars() returns (r: Result<()>)
      requires prev != this
      modifies this`cells
      ensures prev == null || code.freevars == [] ==> r.Ok? && cells == old(cells)
      ensures prev != null ==> (r.Ok? <==> forall v | v in code.freevars :: v in prev.cells)
      ensures prev != null && r.Ok? ==>
        cells.Keys == old(cells).Keys + (set v | v in code.freevars) &&
        (forall v | v in code.freevars :: cells[v] == prev.cells[v]) &&
        (forall v | v in old(cells) && v !in code.freevars :: cells[v] == old(cells)[v])
    {
      if code.freevars == [] || prev == null {
        return Ok(());
      }
      var i := 0;
      while i < |code.freevars|
        invariant 0 <= i <= |code.freevars|
        invariant prev != null
        invariant forall j | 0 <= j < i :: code.freevars[j] in prev.cells
        invariant cells.Keys == old(cells).Keys + (set j | 0 <= j < i :: code.freevars[j])
        invariant forall j | 0 <= j < i :: cells[code.freevars[j]] == prev.cells[code.freevars[j]]
        invariant forall v | v in old(cells) && v !in code.freevars[..i] :: cells[v] == old(cells)[v]
      {
        var name := code.freevars[i];
        if name !in prev.cells {
          return Err(KeyError(name));
        }
        cells := cells[name := prev.cells[name]];
        i := i + 1;
      }
      assert code.freevars[..i] == code.freevars;
      assert (set j | 0 <= j < i :: code.freevars[j]) == set v | v in code.freevars by {
        forall v | v in code.freevars ensures v in (set j | 0 <= j < i :: code.freevars[j]) {
          var j :| 0 <= j < |code.freevars| && code.freevars[j] == v;
        }
      }
      r := Ok(());
    }

    /** Frame.init_instruction_set: the sparse array indexed by byte offset. */
    method InitInstructionSet(instrs: seq<Instruction>)
      modifies this`instructionSet
      ensures instructionSet == Layout(instrs)
    {
      instructionSet := [];
      for i := 0 to |instrs|
        invariant instructionSet == Layout(instrs[..i])
      {
        assert instrs[..i + 1][..i] == instrs[..i];
        instructionSet := instructionSet + Nones(instrs[i].offset - |instructionSet|) + [Some(instrs[i])];
      }
      assert instrs[..|instrs|] == instrs;
    }

    /** `stack.append(v)` */
    method Push(v: Value)
      modifies this`stack
      ensures stack == old(stack) + [v]
    {
      stack := stack + [v];
    }

    /** `stack.pop()`, which raises IndexError on an empty stack. */
    method Pop() returns (r: Result<Value>)
      modifies this`stack
      ensures old(stack) == [] ==> r.Err? && stack == old(stack)
      ensures old(stack) != [] ==> r == Ok(old(stack)[|old(stack)| - 1]) && stack == old(stack)[..|old(stack)| - 1]
    {
      if stack == [] {
        return Err(IndexError("pop from empty list"));
      }
      r := Ok(stack[|stack| - 1]);
      stack := stack[..|stack| - 1];
    }
  }
}
