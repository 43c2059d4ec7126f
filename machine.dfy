/**
 * The virtual machine: its frame stack, frame creation, the dispatch loop
 * and one handler per opcode.  Handlers act on the frame the machine is
 * currently running, passed as `f`; all value operations beyond list
 * surgery go to `host`.
 */
module Machine {
  import opened PyList
  import opened Objects
  import opened Effects

  /** The module object a top-level namespace binds as `__builtins__`. */
  const BuiltinsModule: Value := VHost(0)

  /** The dict make_frame creates for a top-level frame, used as both its locals and its globals. */
  const MainNamespace: map<string, Value> :=
    map["__builtins__" := BuiltinsModule, "__name__" := VStr("__main__"), "__doc__" := VNone, "__package__" := VNone]

  /** The `argval` of a name operand. */
  function NameOf(a: Arg): (r: Result<string>)
    ensures r.Ok? <==> a.NameArg?
    ensures a.NameArg? ==> r.value == a.name
  {
    if a.NameArg? then Ok(a.name) else Err(TypeError("argval is not a name"))
  }

  /** The `argval` of a count, flag or jump-target operand. */
  function IntOf(a: Arg): (r: Result<int>)
    ensures r.Ok? <==> a.IntArg?
    ensures a.IntArg? ==> r.value == a.n
  {
    if a.IntArg? then Ok(a.n) else Err(TypeError("argval is not an integer"))
  }

  /** The `argval` of LOAD_CONST: whatever the operand is, as a value. */
  function ConstOf(a: Arg): Value {
    match a
    case NoArg => VNone
    case IntArg(n) => VInt(n)
    case NameArg(name) => VStr(name)
    case ConstArg(v) => v
  }

  lemma MapUnionValues<K, V>(m: map<K, V>, t: map<K, V>)
    ensures (m + t).Values <= m.Values + t.Values
  {
    forall v | v in (m + t).Values ensures v in m.Values + t.Values {
      var k :| k in m + t && (m + t)[k] == v;
      if k in t {
        assert t[k] == v;
      } else {
        assert m[k] == v;
      }
    }
  }

  lemma MapRemoveValues<K, V>(m: map<K, V>, k: K)
    ensures (m - {k}).Values <= m.Values
  {
    forall v | v in (m - {k}).Values ensures v in m.Values {
      var j :| j in m - {k} && (m - {k})[j] == v;
      assert m[j] == v;
    }
  }

  /** What a call opcode pops: the stack left below, the callee and its arguments. */
  datatype CallParts = CallParts(rest: seq<Value>, func: Value, pos: seq<Value>, kw: map<string, Value>)

  class VirtualMachine {
    /** The host runtime's value operations. */
    const host: Host
    /** `builtins.__dict__`, the builtins of every top-level frame. */
    const builtins: map<string, Value>

    /** `frame_stack`: the running frames, and a frame's return value while it is being handed back. */
    var frameStack: seq<Value>
    /** `frame`: the frame being run, or None. */
    var frame: Value

    /** Every frame, namespace and cell this machine has created. */
    ghost var repr: set<object>
    /** The frames whose run fell off the end of their code, in the order it happened. */
    ghost var strays: seq<Frame>

    constructor (host: Host, builtins: map<string, Value>)
      ensures this.host == host && this.builtins == builtins
      ensures frameStack == [] && frame == VNone
      ensures repr == {} && strays == []
      ensures Valid()
    {
      this.host := host;
      this.builtins := builtins;
      frameStack := [];
      frame := VNone;
      repr := {};
      strays := [];
    }

    /** Every known frame's namespaces and cells are known too. */
    ghost predicate Heap()
      reads this, repr
    {
      forall g: Frame | g in repr :: g.locals in repr && g.globals in repr && g.cells.Values <= repr
    }

    /** `frame` is the last element of `frame_stack`, or None when it is empty. */
    ghost predicate Linked()
      reads this
    {
      frame == if frameStack == [] then VNone else frameStack[|frameStack| - 1]
    }

    /** Between instructions the frame stack holds only known frames. */
    ghost predicate FramesOk()
      reads this
    {
      Linked() && forall i | 0 <= i < |frameStack| :: frameStack[i].VFrame? && frameStack[i].frame in repr
    }

    ghost predicate Valid()
      reads this, repr
    {
      Heap() && FramesOk()
    }

    /** The known objects only grow, and only by new ones. */
    twostate predicate Grown()
      reads this
    {
      old(repr) <= repr && fresh(repr - old(repr))
    }

    /** `strays` only grew, and it grew exactly when `fell` says a run fell off its end. */
    twostate predicate Strayed(fell: bool)
      reads this
    {
      old(strays) <= strays && (fell <==> |strays| > |old(strays)|)
    }

    /** The objects make_frame writes: the calling frame and its globals. */
    ghost function CallerParts(): set<object>
      reads this
    {
      if frame.VFrame? then {frame.frame, frame.frame.globals} else {}
    }

    // ------------------------------------------------------------ frame stack

    /** push_frame */
    method PushFrame(f: Frame)
      modifies this`frameStack, this`frame
      ensures frameStack == old(frameStack) + [VFrame(f)] && frame == VFrame(f)
      ensures Linked()
    {
      frameStack := frameStack + [VFrame(f)];
      frame := VFrame(f);
    }

    /** pop_frame: drops the last entry and makes `frame` the new last one, or None. */
    method PopFrame() returns (r: Result<()>)
      modifies this`frameStack, this`frame
      ensures old(frameStack) == [] ==> r.Err? && frameStack == old(frameStack) && frame == old(frame)
      ensures old(frameStack) != [] ==> r.Ok? && frameStack == old(frameStack)[..|old(frameStack)| - 1] && Linked()
    {
      if frameStack == [] {
        return Err(IndexError("pop from empty list"));
      }
      frameStack := frameStack[..|frameStack| - 1];
      if frameStack != [] {
        frame := frameStack[|frameStack| - 1];
      } else {
        frame := VNone;
      }
      return Ok(());
    }

    /** `frame_stack.pop()` in run_frame. */
    method PopEntry() returns (r: Result<Value>)
      modifies this`frameStack
      ensures old(frameStack) == [] ==> r.Err? && frameStack == old(frameStack)
      ensures old(frameStack) != [] ==>
        r == Ok(old(frameStack)[|old(frameStack)| - 1]) && frameStack == old(frameStack)[..|old(frameStack)| - 1]
    {
      if frameStack == [] {
        return Err(IndexError("pop from empty list"));
      }
      r := Ok(frameStack[|frameStack| - 1]);
      frameStack := frameStack[..|frameStack| - 1];
    }

    /**
     * make_frame.  With no running frame the new frame gets one fresh
     * main namespace as both locals and globals and no caller.  Otherwise
     * the caller's locals are first merged into the caller's globals
     * object, which the new frame shares, and the new frame's locals are
     * `args`; the new frame then publishes its cell variables into the
     * caller's table and takes its free variables from it.
     */
    method MakeFrame(code: Code, args: map<string, Value>) returns (r: Result<Frame>)
      requires Valid()
      modifies this`repr, CallerParts()
      ensures Valid() && Grown()
      ensures frameStack == old(frameStack) && frame == old(frame)
      ensures r.Ok? ==> var nf := r.value;
        fresh(nf) && nf in repr && nf.code == code &&
        nf.ip == 0 && nf.stack == [] && nf.blockStack == [] && nf.instructionSet == [] &&
        fresh(nf.locals) && nf.prev != nf
      ensures !old(frame).VFrame? ==> (r.Ok? &&
        r.value.prev == null && r.value.globals == r.value.locals &&
        r.value.locals.entries == MainNamespace && r.value.builtins == builtins &&
        r.value.cells.Keys == (set v | v in code.cellvars) &&
        forall v | v in r.value.cells :: fresh(r.value.cells[v]) && r.value.cells[v].value == Seed(MainNamespace, v))
      ensures old(frame).VFrame? ==> var caller := old(frame).frame;
        caller.cells.Keys == old(caller.cells).Keys + (set v | v in code.cellvars) &&
        (forall v | v in old(caller.cells) && v !in code.cellvars :: caller.cells[v] == old(caller.cells)[v]) &&
        (forall v | v in code.cellvars :: fresh(caller.cells[v]) && caller.cells[v].value == Seed(args, v))
      ensures old(frame).VFrame? ==> var caller := old(frame).frame;
        caller.globals.entries == old(caller.globals.entries) + old(caller.locals.entries) &&
        caller.stack == old(caller.stack) && caller.ip == old(caller.ip) &&
        caller.blockStack == old(caller.blockStack) && caller.instructionSet == old(caller.instructionSet) &&
        (r.Ok? <==> forall v | v in code.freevars :: v in old(caller.cells) || v in code.cellvars)
      ensures old(frame).VFrame? && r.Ok? ==> var caller, nf := old(frame).frame, r.value;
        nf.prev == caller && nf.globals == caller.globals && nf.locals.entries == args &&
        nf.builtins == caller.builtins &&
        nf.cells.Keys == (set v | v in code.cellvars) + (set v | v in code.freevars) &&
        (forall v | v in nf.cells :: v in caller.cells && nf.cells[v] == caller.cells[v])
    {
      if !frame.VFrame? {
        var nf := MakeTopFrame(code);
        return Ok(nf);
      }
      r := MakeCalleeFrame(frame.frame, code, args);
    }

    /** make_frame with no running frame. */
    method MakeTopFrame(code: Code) returns (nf: Frame)
      requires Heap()
      modifies this`repr
      ensures Heap() && Grown() && nf in repr
      ensures fresh(nf) && nf.code == code && nf.ip == 0 && nf.stack == [] && nf.blockStack == [] && nf.instructionSet == []
      ensures fresh(nf.locals) && nf.prev == null && nf.globals == nf.locals
      ensures nf.locals.entries == MainNamespace && nf.builtins == builtins
      ensures nf.cells.Keys == set v | v in code.cellvars
      ensures forall v | v in nf.cells :: fresh(nf.cells[v]) && nf.cells[v].value == Seed(MainNamespace, v)
    {
      var space := new Namespace(MainNamespace);
      nf := new Frame(code, space, space, null, builtins);
      repr := repr + {nf, space} + nf.cells.Values;
    }

    /** make_frame called while `caller` runs. */
    method MakeCalleeFrame(caller: Frame, code: Code, args: map<string, Value>) returns (r: Result<Frame>)
      requires Heap() && caller in repr
      modifies this`repr, caller`cells, caller.globals
      ensures Heap() && Grown()
      ensures caller.globals.entries == old(caller.globals.entries) + old(caller.locals.entries)
      ensures caller.cells.Keys == old(caller.cells).Keys + (set v | v in code.cellvars)
      ensures forall v | v in old(caller.cells) && v !in code.cellvars :: caller.cells[v] == old(caller.cells)[v]
      ensures forall v | v in code.cellvars :: fresh(caller.cells[v]) && caller.cells[v].value == Seed(args, v)
      ensures r.Ok? <==> forall v | v in code.freevars :: v in old(caller.cells) || v in code.cellvars
      ensures r.Ok? ==> var nf := r.value;
        fresh(nf) && nf in repr && nf.code == code &&
        nf.ip == 0 && nf.stack == [] && nf.blockStack == [] && nf.instructionSet == [] &&
        fresh(nf.locals) && nf.prev == caller && nf.prev != nf &&
        nf.globals == caller.globals && nf.locals.entries == args && nf.builtins == caller.builtins &&
        nf.cells.Keys == (set v | v in code.cellvars) + (set v | v in code.freevars) &&
        (forall v | v in nf.cells :: v in caller.cells && nf.cells[v] == caller.cells[v])
      ensures r.Err? ==> forall g: Frame | g in repr :: g in old(repr)
    {
      var nf := NewCalleeFrame(caller, code, args);
      ghost var table := nf.cells;
      r := Adopt(nf);
      if r.Ok? {
        forall v | v in nf.cells ensures v in caller.cells && nf.cells[v] == caller.cells[v] {
          if v !in code.freevars {
            assert nf.cells[v] == table[v];
          }
        }
      }
    }

    /**
     * make_frame's merge of the caller's locals into its globals, then
     * Frame.__init__ up to the free variables, for a callee of `caller`.
     * The new frame is not yet in `repr`; its namespace and cells are.
     */
    method NewCalleeFrame(caller: Frame, code: Code, args: map<string, Value>) returns (nf: Frame)
      requires Heap() && caller in repr
      modifies this`repr, caller`cells, caller.globals
      ensures Heap() && Grown() && nf !in repr && forall g: Frame | g in repr :: g in old(repr)
      ensures caller.globals.entries == old(caller.globals.entries) + old(caller.locals.entries)
      ensures caller.cells == old(caller.cells) + nf.cells
      ensures fresh(nf) && nf.code == code && nf.ip == 0 && nf.stack == [] && nf.blockStack == [] &&
        nf.instructionSet == [] && fresh(nf.locals) && nf.locals in repr && nf.locals.entries == args &&
        nf.prev == caller && nf.prev != nf && nf.globals == caller.globals && nf.builtins == caller.builtins
      ensures nf.cells.Keys == set v | v in code.cellvars
      ensures nf.cells.Values <= repr && forall v | v in nf.cells :: fresh(nf.cells[v]) && nf.cells[v].value == Seed(args, v)
    {
      caller.globals.entries := caller.globals.entries + caller.locals.entries;
      var space := new Namespace(args);
      nf := new Frame(code, space, caller.globals, caller, caller.builtins);
      MapUnionValues(old(caller.cells), nf.cells);
      repr := repr + {space} + nf.cells.Values;
      forall g: Frame | g in repr ensures g.locals in repr && g.globals in repr && g.cells.Values <= repr {
        assert g in old(repr);
      }
    }

    /**
     * The free-variable step of Frame.__init__ for a frame that is not yet
     * known, which becomes known when every name is found.
     */
    method Adopt(nf: Frame) returns (r: Result<Frame>)
      requires Heap() && nf !in repr && nf.prev != null && nf.prev in repr && nf.prev != nf
      requires nf.locals in repr && nf.globals in repr && nf.cells.Values <= repr
      modifies this`repr, nf`cells
      ensures Heap() && old(repr) <= repr && repr - old(repr) <= {nf}
      ensures r.Ok? <==> forall v | v in nf.code.freevars :: v in nf.prev.cells
      ensures r.Ok? ==> (r.value == nf && repr == old(repr) + {nf} &&
        nf.cells.Keys == old(nf.cells).Keys + (set v | v in nf.code.freevars) &&
        (forall v | v in nf.code.freevars :: nf.cells[v] == nf.prev.cells[v]) &&
        (forall v | v in old(nf.cells) && v !in nf.code.freevars :: nf.cells[v] == old(nf.cells)[v]))
      ensures r.Err? ==> repr == old(repr)
    {
      var table := nf.cells;
      var bound := nf.BindFreevars();
      if bound.Err? {
        return Err(bound.error);
      }
      forall c | c in nf.cells.Values ensures c in repr {
        var v :| v in nf.cells && nf.cells[v] == c;
        if v in nf.code.freevars {
          assert c == nf.prev.cells[v] && c in nf.prev.cells.Values;
        } else {
          assert c == table[v] && c in table.Values;
        }
      }
      repr := repr + {nf};
      return Ok(nf);
    }

    // ------------------------------------------------------------ names and scopes

    /**
     * `container[key] = value` on a value: a dict gets the new binding;
     * any other container is a host object, updated by the host in place.
     */
    function StoreItem(container: Value, key: Value, value: Value): (r: Result<Value>)
      ensures container.VDict? ==> r == Ok(VDict(container.entries[key := value]))
      ensures !container.VDict? ==> (r.Ok? <==> host.setItem(container, key, value).Ok?) && (r.Ok? ==> r.value == container)
    {
      if container.VDict? then Ok(VDict(container.entries[key := value]))
      else
        var done :- host.setItem(container, key, value);
        Ok(container)
    }

    /** STORE_NAME and STORE_FAST: pop into the locals. */
    method StoreLocal(f: Frame, name: string) returns (r: Result<()>)
      modifies f`stack, f.locals
      ensures r.Ok? <==> old(f.stack) != []
      ensures r.Ok? ==> var s := old(f.stack);
        f.stack == s[..|s| - 1] && f.locals.entries == old(f.locals.entries)[name := s[|s| - 1]]
    {
      var v :- f.Pop();
      f.locals.entries := f.locals.entries[name := v];
      return Ok(());
    }

    /** STORE_GLOBAL: pop into the globals. */
    method StoreGlobal(f: Frame, name: string) returns (r: Result<()>)
      modifies f`stack, f.globals
      ensures r.Ok? <==> old(f.stack) != []
      ensures r.Ok? ==> var s := old(f.stack);
        f.stack == s[..|s| - 1] && f.globals.entries == old(f.globals.entries)[name := s[|s| - 1]]
    {
      var v :- f.Pop();
      f.globals.entries := f.globals.entries[name := v];
      return Ok(());
    }

    /** STORE_SUBSCR: `TOS1[TOS] = TOS2`, reading the three items without popping them. */
    method StoreSubscr(f: Frame) returns (r: Result<()>)
      ensures |f.stack| < 3 ==> r.Err?
      ensures |f.stack| >= 3 ==> var s, n := f.stack, |f.stack|;
        r == host.setItem(s[n - 2], s[n - 1], s[n - 3])
    {
      var s := f.stack;
      if |s| < 3 {
        return Err(ValueError("not enough values to unpack"));
      }
      var third, second, first := s[|s| - 3], s[|s| - 2], s[|s| - 1];
      r := host.setItem(second, first, third);
    }

    /** STORE_ATTR: `TOS.name = TOS1`, popping both and pushing them back. */
    method StoreAttr(f: Frame, name: string) returns (r: Result<()>)
      modifies f`stack
      ensures var s, n := old(f.stack), |old(f.stack)|;
        r.Ok? <==> n >= 2 && host.setAttr(s[n - 1], name, s[n - 2]).Ok?
      ensures r.Ok? ==> f.stack == old(f.stack)
    {
      var first :- f.Pop();
      var second :- f.Pop();
      var done :- host.setAttr(first, name, second);
      f.Push(second);
      f.Push(first);
      return Ok(());
    }

    /** STORE_DEREF: pop into the cell bound to `name`, which every frame sharing that cell sees. */
    method StoreDeref(f: Frame, name: string) returns (r: Result<()>)
      modifies f`stack, f.cells.Values
      ensures r.Ok? <==> old(f.stack) != [] && name in f.cells
      ensures r.Ok? ==> var s := old(f.stack);
        f.stack == s[..|s| - 1] && f.cells[name].value == s[|s| - 1]
      ensures forall c | c in f.cells.Values && (r.Err? || c != f.cells[name]) :: c.value == old(c.value)
    {
      var v :- f.Pop();
      if name !in f.cells {
        return Err(KeyError(name));
      }
      f.cells[name].Set(v);
      return Ok(());
    }

    /** SETUP_ANNOTATIONS: bind `__annotations__` to an empty dict unless the locals already have it. */
    method SetupAnnotations(f: Frame)
      modifies f.locals
      ensures "__annotations__" in old(f.locals.entries) ==> f.locals.entries == old(f.locals.entries)
      ensures "__annotations__" !in old(f.locals.entries) ==>
        f.locals.entries == old(f.locals.entries)["__annotations__" := VDict(map[])]
    {
      if "__annotations__" !in f.locals.entries {
        f.locals.entries := f.locals.entries["__annotations__" := VDict(map[])];
      }
    }

    /** STORE_ANNOTATION: pop into `__annotations__[name]` of the locals. */
    method StoreAnnotation(f: Frame, name: string) returns (r: Result<()>)
      modifies f`stack, f.locals
      ensures var s, e := old(f.stack), old(f.locals.entries);
        r.Ok? <==> s != [] && "__annotations__" in e && StoreItem(e["__annotations__"], VStr(name), s[|s| - 1]).Ok?
      ensures r.Ok? ==> var s, e := old(f.stack), old(f.locals.entries);
        f.stack == s[..|s| - 1] &&
        f.locals.entries == e["__annotations__" := StoreItem(e["__annotations__"], VStr(name), s[|s| - 1]).value]
    {
      var tos :- f.Pop();
      if "__annotations__" !in f.locals.entries {
        return Err(KeyError("__annotations__"));
      }
      var updated :- StoreItem(f.locals.entries["__annotations__"], VStr(name), tos);
      f.locals.entries := f.locals.entries["__annotations__" := updated];
      return Ok(());
    }

    /** LOAD_CONST */
    method LoadConst(f: Frame, v: Value)
      modifies f`stack
      ensures f.stack == old(f.stack) + [v]
    {
      f.Push(v);
    }

    /**
     * LOAD_NAME: push the binding from the first of locals, globals and
     * builtins that has the name, and push nothing when none has it.
     */
    method LoadName(f: Frame, name: string)
      modifies f`stack
      ensures f.stack == old(f.stack) + Pushed(ResolveName(f.locals.entries, f.globals.entries, f.builtins, name))
    {
      if name in f.locals.entries {
        f.Push(f.locals.entries[name]);
      } else if name in f.globals.entries {
        f.Push(f.globals.entries[name]);
      } else if name in f.builtins {
        f.Push(f.builtins[name]);
      }
    }

    /** LOAD_FAST: push the local binding; KeyError when there is none. */
    method LoadFast(f: Frame, name: string) returns (r: Result<()>)
      modifies f`stack
      ensures r.Ok? <==> name in f.locals.entries
      ensures r.Ok? ==> f.stack == old(f.stack) + [f.locals.entries[name]]
      ensures r.Err? ==> f.stack == old(f.stack)
    {
      if name !in f.locals.entries {
        return Err(KeyError(name));
      }
      f.Push(f.locals.entries[name]);
      return Ok(());
    }

    /** LOAD_GLOBAL: push from globals, else builtins; KeyError when neither has the name. */
    method LoadGlobal(f: Frame, name: string) returns (r: Result<()>)
      modifies f`stack
      ensures var o := ResolveGlobal(f.globals.entries, f.builtins, name);
        (r.Ok? <==> o.Some?) && (r.Ok? ==> f.stack == old(f.stack) + [o.value])
    {
      if name in f.globals.entries {
        f.Push(f.globals.entries[name]);
      } else if name in f.builtins {
        f.Push(f.builtins[name]);
      } else {
        return Err(KeyError(name));
      }
      return Ok(());
    }

    /** LOAD_ATTR: replace TOS by its attribute `name`. */
    method LoadAttr(f: Frame, name: string) returns (r: Result<()>)
      modifies f`stack
      ensures var s := old(f.stack);
        r.Ok? <==> s != [] && host.getAttr(s[|s| - 1], name).Ok?
      ensures r.Ok? ==> var s := old(f.stack);
        f.stack == s[..|s| - 1] + [host.getAttr(s[|s| - 1], name).value]
    {
      var tos :- f.Pop();
      var v :- host.getAttr(tos, name);
      f.Push(v);
      return Ok(());
    }

    /** LOAD_CLOSURE: push the cell object itself. */
    method LoadClosure(f: Frame, name: string) returns (r: Result<()>)
      modifies f`stack
      ensures r.Ok? <==> name in f.cells
      ensures r.Ok? ==> f.stack == old(f.stack) + [VCell(f.cells[name])]
    {
      if name !in f.cells {
        return Err(KeyError(name));
      }
      f.Push(VCell(f.cells[name]));
      return Ok(());
    }

    /** LOAD_DEREF: push the value the cell bound to `name` holds now. */
    method LoadDeref(f: Frame, name: string) returns (r: Result<()>)
      modifies f`stack
      ensures r.Ok? <==> name in f.cells
      ensures r.Ok? ==> f.stack == old(f.stack) + [f.cells[name].value]
    {
      if name !in f.cells {
        return Err(KeyError(name));
      }
      f.Push(f.cells[name].Get());
      return Ok(());
    }

    /**
     * Closure cells are shared objects: STORE_DEREF in one frame followed by
     * LOAD_DEREF in another frame bound to the same cell reads the stored value.
     */
    method StoreDerefLoadDeref(f: Frame, g: Frame, name: string) returns (r: Result<()>)
      requires f != g && name in f.cells && name in g.cells && f.cells[name] == g.cells[name]
      modifies f`stack, f.cells.Values, g`stack
      ensures r.Ok? <==> old(f.stack) != []
      ensures r.Ok? ==> var s := old(f.stack);
        f.stack == s[..|s| - 1] && g.stack == old(g.stack) + [s[|s| - 1]]
    {
      r := StoreDeref(f, name);
      if r.Ok? {
        r := LoadDeref(g, name);
      }
    }

    /** LOAD_CLASSDEREF: the local binding if there is one, else the cell's value. */
    method LoadClassDeref(f: Frame, name: string) returns (r: Result<()>)
      modifies f`stack
      ensures r.Ok? <==> name in f.locals.entries || name in f.cells
      ensures r.Ok? && name in f.locals.entries ==> f.stack == old(f.stack) + [f.locals.entries[name]]
      ensures r.Ok? && name !in f.locals.entries ==> f.stack == old(f.stack) + [f.cells[name].value]
    {
      if name in f.locals.entries {
        f.Push(f.locals.entries[name]);
      } else if name in f.cells {
        f.Push(f.cells[name].Get());
      } else {
        return Err(KeyError(name));
      }
      return Ok(());
    }

    /** DELETE_ATTR: `del TOS.name`, leaving TOS in place. */
    method DeleteAttr(f: Frame, name: string) returns (r: Result<()>)
      modifies f`stack
      ensures var s := old(f.stack);
        r.Ok? <==> s != [] && host.delAttr(s[|s| - 1], name).Ok?
      ensures r.Ok? ==> f.stack == old(f.stack)
    {
      var tos :- f.Pop();
      var done :- host.delAttr(tos, name);
      f.Push(tos);
      return Ok(());
    }

    /** DELETE_FAST: unbind a local; KeyError when unbound. */
    method DeleteFast(f: Frame, name: string) returns (r: Result<()>)
      modifies f.locals
      ensures r.Ok? <==> name in old(f.locals.entries)
      ensures r.Ok? ==> f.locals.entries == old(f.locals.entries) - {name}
    {
      if name !in f.locals.entries {
        return Err(KeyError(name));
      }
      f.locals.entries := f.locals.entries - {name};
      return Ok(());
    }

    /** DELETE_GLOBAL: unbind a global; KeyError when unbound. */
    method DeleteGlobal(f: Frame, name: string) returns (r: Result<()>)
      modifies f.globals
      ensures r.Ok? <==> name in old(f.globals.entries)
      ensures r.Ok? ==> f.globals.entries == old(f.globals.entries) - {name}
    {
      if name !in f.globals.entries {
        return Err(KeyError(name));
      }
      f.globals.entries := f.globals.entries - {name};
      return Ok(());
    }

    /** DELETE_NAME: unbind from the locals when bound there, else from the globals. */
    method DeleteName(f: Frame, name: string) returns (r: Result<()>)
      modifies f.locals, f.globals
      ensures name in old(f.locals.entries) ==> (r.Ok? && f.locals.entries == old(f.locals.entries) - {name} &&
        (f.globals != f.locals ==> f.globals.entries == old(f.globals.entries)))
      ensures name !in old(f.locals.entries) ==> ((r.Ok? <==> name in old(f.globals.entries)) &&
        f.locals.entries == old(f.locals.entries) &&
        (r.Ok? ==> f.globals.entries == old(f.globals.entries) - {name}))
    {
      if name in f.locals.entries {
        f.locals.entries := f.locals.entries - {name};
      } else if name in f.globals.entries {
        f.globals.entries := f.globals.entries - {name};
      } else {
        return Err(KeyError(name));
      }
      return Ok(());
    }

    /** DELETE_SUBSCR: `del TOS1[TOS]`, popping both and pushing them back. */
    method DeleteSubscr(f: Frame) returns (r: Result<()>)
      modifies f`stack
      ensures var s, n := old(f.stack), |old(f.stack)|;
        r.Ok? <==> n >= 2 && host.delItem(s[n - 2], s[n - 1]).Ok?
      ensures r.Ok? ==> f.stack == old(f.stack)
    {
      var first :- f.Pop();
      var second :- f.Pop();
      var done :- host.delItem(second, first);
      f.Push(second);
      f.Push(first);
      return Ok(());
    }

    /** DELETE_DEREF: drop `name` from this frame's cell table (the cell itself is untouched). */
    method DeleteDeref(f: Frame, name: string) returns (r: Result<()>)
      modifies f`cells
      ensures r.Ok? <==> name in old(f.cells)
      ensures r.Ok? ==> f.cells == old(f.cells) - {name}
      ensures f.cells.Values <= old(f.cells).Values
    {
      if name !in f.cells {
        return Err(KeyError(name));
      }
      MapRemoveValues(f.cells, name);
      f.cells := f.cells - {name};
      return Ok(());
    }

    // ------------------------------------------------------------ operators and stack shuffles

    /** UNARY_*: replace TOS by its image; `not` is the negated truth value. */
    method Unary(f: Frame, op: UnaryOp) returns (r: Result<()>)
      modifies f`stack
      ensures var s := old(f.stack);
        r.Ok? <==> s != [] && (op == Not || host.unary(op, s[|s| - 1]).Ok?)
      ensures r.Ok? ==> var s := old(f.stack); var tos := s[|s| - 1];
        f.stack == s[..|s| - 1] + [if op == Not then VBool(!host.truthy(tos)) else host.unary(op, tos).value]
    {
      var tos :- f.Pop();
      if op == Not {
        f.Push(VBool(!host.truthy(tos)));
      } else {
        var v :- host.unary(op, tos);
        f.Push(v);
      }
      return Ok(());
    }

    /** BINARY_* (and INPLACE_*): replace TOS1, TOS by `TOS1 op TOS`. */
    method Binary(f: Frame, op: BinaryOp) returns (r: Result<()>)
      modifies f`stack
      ensures var s, n := old(f.stack), |old(f.stack)|;
        r.Ok? <==> n >= 2 && host.binary(op, s[n - 2], s[n - 1]).Ok?
      ensures r.Ok? ==> var s, n := old(f.stack), |old(f.stack)|;
        f.stack == s[..n - 2] + [host.binary(op, s[n - 2], s[n - 1]).value]
    {
      var first :- f.Pop();
      var second :- f.Pop();
      var v :- host.binary(op, second, first);
      f.Push(v);
      return Ok(());
    }

    /** DUP_TOP: `s + [a]` becomes `s + [a, a]`. */
    method DupTop(f: Frame) returns (r: Result<()>)
      modifies f`stack
      ensures r.Ok? <==> |old(f.stack)| >= 1
      ensures r.Ok? ==> var s, n := old(f.stack), |old(f.stack)|;
        f.stack == s[..n - 1] + [s[n - 1], s[n - 1]]
    {
      var tos :- f.Pop();
      f.Push(tos);
      f.Push(tos);
      return Ok(());
    }

    /** DUP_TOP_TWO: `s + [b, a]` becomes `s + [b, a, b, a]`. */
    method DupTopTwo(f: Frame) returns (r: Result<()>)
      modifies f`stack
      ensures r.Ok? <==> |old(f.stack)| >= 2
      ensures r.Ok? ==> var s, n := old(f.stack), |old(f.stack)|;
        f.stack == s[..n - 2] + [s[n - 2], s[n - 1], s[n - 2], s[n - 1]]
    {
      var first :- f.Pop();
      var second :- f.Pop();
      f.Push(second);
      f.Push(first);
      f.Push(second);
      f.Push(first);
      return Ok(());
    }

    /** POP_TOP */
    method PopTop(f: Frame) returns (r: Result<()>)
      modifies f`stack
      ensures r.Ok? <==> |old(f.stack)| >= 1
      ensures r.Ok? ==> f.stack == old(f.stack)[..|old(f.stack)| - 1]
    {
      var tos :- f.Pop();
      return Ok(());
    }

    /** ROT_TWO: `s + [b, a]` becomes `s + [a, b]`. */
    method RotTwo(f: Frame) returns (r: Result<()>)
      modifies f`stack
      ensures r.Ok? <==> |old(f.stack)| >= 2
      ensures r.Ok? ==> var s, n := old(f.stack), |old(f.stack)|;
        f.stack == s[..n - 2] + [s[n - 1], s[n - 2]]
    {
      var first :- f.Pop();
      var second :- f.Pop();
      f.Push(first);
      f.Push(second);
      return Ok(());
    }

    /** ROT_THREE: `s + [c, b, a]` becomes `s + [a, c, b]`. */
    method RotThree(f: Frame) returns (r: Result<()>)
      modifies f`stack
      ensures r.Ok? <==> |old(f.stack)| >= 3
      ensures r.Ok? ==> var s, n := old(f.stack), |old(f.stack)|;
        f.stack == s[..n - 3] + [s[n - 1], s[n - 3], s[n - 2]]
    {
      var first :- f.Pop();
      var second :- f.Pop();
      var third :- f.Pop();
      f.Push(first);
      f.Push(third);
      f.Push(second);
      return Ok(());
    }

    /**
     * COMPARE_OP: the operator is looked up before anything is popped, so
     * an unknown operator raises KeyError with the stack untouched.
     */
    method CompareOp(f: Frame, op: string) returns (r: Result<()>)
      modifies f`stack
      ensures op !in CompareOps ==> r.Err? && f.stack == old(f.stack)
      ensures var s, n := old(f.stack), |old(f.stack)|;
        r.Ok? <==> op in CompareOps && n >= 2 && host.compare(op, s[n - 2], s[n - 1]).Ok?
      ensures r.Ok? ==> var s, n := old(f.stack), |old(f.stack)|;
        f.stack == s[..n - 2] + [host.compare(op, s[n - 2], s[n - 1]).value]
    {
      if op !in CompareOps {
        return Err(KeyError(op));
      }
      var first :- f.Pop();
      var second :- f.Pop();
      var v :- host.compare(op, second, first);
      f.Push(v);
      return Ok(());
    }

    /** GET_ITER: replace TOS by an iterator over it. */
    method GetIter(f: Frame) returns (r: Result<()>)
      modifies f`stack
      ensures var s := old(f.stack);
        r.Ok? <==> s != [] && host.iter(s[|s| - 1]).Ok?
      ensures r.Ok? ==> var s := old(f.stack);
        f.stack == s[..|s| - 1] + [host.iter(s[|s| - 1]).value]
    {
      var tos :- f.Pop();
      var it :- host.iter(tos);
      f.Push(it);
      return Ok(());
    }

    // ------------------------------------------------------------ jumps and loop blocks

    /**
     * POP_JUMP_IF_FALSE (`onTrue` false) and POP_JUMP_IF_TRUE: always pop;
     * jump when the truth of TOS is `onTrue`.  A jump stores
     * `target - 1`, which the dispatch loop's increment turns into
     * `target`.
     */
    method PopJumpIf(f: Frame, onTrue: bool, target: int) returns (r: Result<()>)
      modifies f`stack, f`ip
      ensures r.Ok? <==> |old(f.stack)| >= 1
      ensures r.Ok? ==> var s := old(f.stack);
        f.stack == s[..|s| - 1] &&
        f.ip == if host.truthy(s[|s| - 1]) == onTrue then target - 1 else old(f.ip)
    {
      var tos :- f.Pop();
      if host.truthy(tos) == onTrue {
        f.ip := target - 1;
      }
      return Ok(());
    }

    /** JUMP_IF_TRUE_OR_POP and JUMP_IF_FALSE_OR_POP: TOS stays only when the jump is taken. */
    method JumpIfOrPop(f: Frame, onTrue: bool, target: int) returns (r: Result<()>)
      modifies f`stack, f`ip
      ensures r.Ok? <==> |old(f.stack)| >= 1
      ensures r.Ok? ==> var s := old(f.stack);
        if host.truthy(s[|s| - 1]) == onTrue then f.stack == s && f.ip == target - 1
        else f.stack == s[..|s| - 1] && f.ip == old(f.ip)
    {
      var tos :- f.Pop();
      if host.truthy(tos) == onTrue {
        f.Push(tos);
        f.ip := target - 1;
      }
      return Ok(());
    }

    /** JUMP_ABSOLUTE, JUMP_FORWARD and CONTINUE_LOOP. */
    method JumpTo(f: Frame, target: int)
      modifies f`ip
      ensures f.ip == target - 1
    {
      f.ip := target - 1;
    }

    /**
     * FOR_ITER: pop the iterator; push it back with its next item, or
     * jump to `target` when it is exhausted.
     */
    method ForIter(f: Frame, target: int) returns (r: Result<()>)
      modifies f`stack, f`ip
      ensures var s := old(f.stack);
        r.Ok? <==> s != [] && host.next(s[|s| - 1]).Ok?
      ensures r.Ok? ==> var s := old(f.stack); var step := host.next(s[|s| - 1]).value;
        if step.None? then f.stack == s[..|s| - 1] && f.ip == target - 1
        else f.stack == s[..|s| - 1] + [step.value.0, step.value.1] && f.ip == old(f.ip)
    {
      var tos :- f.Pop();
      var step :- host.next(tos);
      if step.None? {
        f.ip := target - 1;
      } else {
        f.Push(step.value.0);
        f.Push(step.value.1);
      }
      return Ok(());
    }

    /** SETUP_LOOP: push the block from this instruction's offset to `target`. */
    method SetupLoop(f: Frame, offset: int, target: int)
      modifies f`blockStack
      ensures f.blockStack == old(f.blockStack) + [Block(offset, target)]
    {
      f.blockStack := f.blockStack + [Block(offset, target)];
    }

    /** BREAK_LOOP: pop the innermost block and resume at its end. */
    method BreakLoop(f: Frame) returns (r: Result<()>)
      modifies f`blockStack, f`ip
      ensures r.Ok? <==> old(f.blockStack) != []
      ensures r.Ok? ==> var b := old(f.blockStack);
        f.blockStack == b[..|b| - 1] && f.ip == b[|b| - 1].end - 1
    {
      if f.blockStack == [] {
        return Err(IndexError("pop from empty list"));
      }
      var block := f.blockStack[|f.blockStack| - 1];
      f.blockStack := f.blockStack[..|f.blockStack| - 1];
      f.ip := block.end - 1;
      return Ok(());
    }

    /** POP_BLOCK */
    method PopBlock(f: Frame) returns (r: Result<()>)
      modifies f`blockStack
      ensures r.Ok? <==> old(f.blockStack) != []
      ensures r.Ok? ==> f.blockStack == old(f.blockStack)[..|old(f.blockStack)| - 1]
    {
      if f.blockStack == [] {
        return Err(IndexError("pop from empty list"));
      }
      f.blockStack := f.blockStack[..|f.blockStack| - 1];
      return Ok(());
    }

    // ------------------------------------------------------------ building and unpacking

    /**
     * BUILD_LIST: replace the top n items by one list of them.  With n = 0
     * an empty list is pushed; with n beyond the depth of the stack the
     * whole stack is taken.
     */
    method BuildList(f: Frame, n: int)
      modifies f`stack
      ensures f.stack == Kept(old(f.stack), n) + [VList(Taken(old(f.stack), n))]
    {
      var lst := [];
      if n != 0 {
        lst := From(f.stack, -n);
        f.stack := Upto(f.stack, -n);
      }
      f.Push(VList(lst));
    }

    /** BUILD_TUPLE: BUILD_LIST, then the list on top becomes a tuple. */
    method BuildTuple(f: Frame, n: int)
      modifies f`stack
      ensures f.stack == Kept(old(f.stack), n) + [VTuple(Taken(old(f.stack), n))]
    {
      ghost var below, items := Kept(f.stack, n), Taken(f.stack, n);
      BuildList(f, n);
      var top := f.stack[|f.stack| - 1];
      assert top == VList(items) && f.stack[..|f.stack| - 1] == below;
      f.stack := f.stack[..|f.stack| - 1] + [VTuple(top.items)];
    }

    /** BUILD_SET: BUILD_LIST, then the host makes a set of the list on top. */
    method BuildSet(f: Frame, n: int) returns (r: Result<()>)
      modifies f`stack
      ensures var m := host.makeSet(Taken(old(f.stack), n));
        (r.Ok? <==> m.Ok?) && (r.Ok? ==> f.stack == Kept(old(f.stack), n) + [m.value])
    {
      ghost var below, items := Kept(f.stack, n), Taken(f.stack, n);
      BuildList(f, n);
      var top := f.stack[|f.stack| - 1];
      assert top == VList(items) && f.stack[..|f.stack| - 1] == below;
      var made :- host.makeSet(top.items);
      f.stack := f.stack[..|f.stack| - 1] + [made];
      return Ok(());
    }

    /** BUILD_LIST_UNPACK: replace the top n iterables by one list of all their items, in order. */
    method BuildListUnpack(f: Frame, n: int) returns (r: Result<()>)
      modifies f`stack
      ensures var sp := Spread(host.elements, Taken(old(f.stack), n));
        (r.Ok? <==> sp.Ok?) && (r.Ok? ==> f.stack == Kept(old(f.stack), n) + [VList(sp.value)])
    {
      ghost var s := f.stack;
      var its: seq<Value> := [];
      if n != 0 {
        its := From(f.stack, -n);
        f.stack := Upto(f.stack, -n);
      }
      assert its == Taken(s, n) && f.stack == Kept(s, n);
      var acc := [];
      var i := 0;
      while i < |its|
        invariant 0 <= i <= |its|
        invariant Spread(host.elements, its[..i]) == Ok(acc)
        invariant f.stack == Kept(s, n)
      {
        SpreadStep(host.elements, its, i);
        var xs := host.elements(its[i]);
        if xs.Err? {
          SpreadErrSticky(host.elements, its, i + 1);
          return Err(xs.error);
        }
        acc := acc + xs.value;
        i := i + 1;
      }
      assert its[..i] == its;
      f.Push(VList(acc));
      return Ok(());
    }

    /** BUILD_TUPLE_UNPACK and BUILD_TUPLE_UNPACK_WITH_CALL: BUILD_LIST_UNPACK, then a tuple. */
    method BuildTupleUnpack(f: Frame, n: int) returns (r: Result<()>)
      modifies f`stack
      ensures var sp := Spread(host.elements, Taken(old(f.stack), n));
        (r.Ok? <==> sp.Ok?) && (r.Ok? ==> f.stack == Kept(old(f.stack), n) + [VTuple(sp.value)])
    {
      var done :- BuildListUnpack(f, n);
      var top := f.stack[|f.stack| - 1];
      f.stack := f.stack[..|f.stack| - 1] + [VTuple(top.items)];
      return Ok(());
    }

    /** BUILD_SET_UNPACK: BUILD_LIST_UNPACK, then the host makes a set. */
    method BuildSetUnpack(f: Frame, n: int) returns (r: Result<()>)
      modifies f`stack
      ensures var sp := Spread(host.elements, Taken(old(f.stack), n));
        (r.Ok? <==> sp.Ok? && host.makeSet(sp.value).Ok?) &&
        (r.Ok? ==> f.stack == Kept(old(f.stack), n) + [host.makeSet(sp.value).value])
    {
      var done :- BuildListUnpack(f, n);
      var top := f.stack[|f.stack| - 1];
      var made :- host.makeSet(top.items);
      f.stack := f.stack[..|f.stack| - 1] + [made];
      return Ok(());
    }

    /**
     * BUILD_MAP: pop n value/key pairs, topmost first, into a dict; a key
     * that repeats keeps the deepest pair's value.
     */
    method BuildMap(f: Frame, n: int) returns (r: Result<()>)
      modifies f`stack
      ensures var s, m := old(f.stack), if n < 0 then 0 else n;
        (r.Ok? <==> 2 * m <= |s|) &&
        (r.Ok? ==> f.stack == s[..|s| - 2 * m] + [VDict(PairsMap(s[|s| - 2 * m..]))])
    {
      ghost var s := f.stack;
      var m := if n < 0 then 0 else n;
      var dct := map[];
      var i := 0;
      while i < m
        invariant 0 <= i <= m && 2 * i <= |s|
        invariant f.stack == s[..|s| - 2 * i]
        invariant dct == PairsMap(s[|s| - 2 * i..])
      {
        var value :- f.Pop();
        var key :- f.Pop();
        ghost var k := |s| - 2 * i;
        assert s[k - 2..][2..] == s[k..];
        dct := dct[key := value];
        i := i + 1;
      }
      f.Push(VDict(dct));
      return Ok(());
    }

    /**
     * BUILD_CONST_KEY_MAP: pop the keys, then one value per key, the last
     * key taking the top value; a repeated key keeps its first value.
     */
    method BuildConstKeyMap(f: Frame) returns (r: Result<()>)
      modifies f`stack
      ensures var s, n := old(f.stack), |old(f.stack)|;
        r.Ok? <==> n >= 1 && host.elements(s[n - 1]).Ok? && |host.elements(s[n - 1]).value| <= n - 1
      ensures r.Ok? ==> var s, n := old(f.stack), |old(f.stack)|;
        var ks := host.elements(s[n - 1]).value; var m := |ks|;
        f.stack == s[..n - 1 - m] + [VDict(ZipMap(Reverse(ks), Reverse(s[n - 1 - m..n - 1])))]
    {
      ghost var s := f.stack;
      var keys :- f.Pop();
      assert keys == s[|s| - 1] && f.stack == s[..|s| - 1];
      var e := host.elements(keys);
      if e.Err? {
        return Err(e.error);
      }
      var ks := e.value;
      var rk := Reverse(ks);
      var popped := PopZip(f, rk);
      if popped.Err? {
        return Err(popped.error);
      }
      ghost var m := |ks|;
      assert s[..|s| - 1][..|s| - 1 - m] == s[..|s| - 1 - m];
      assert s[..|s| - 1][|s| - 1 - m..] == s[|s| - 1 - m..|s| - 1];
      f.Push(VDict(popped.value));
      return Ok(());
    }

    /** Pop one value per key of `rk`, pairing `rk[i]` with the i-th value popped. */
    method PopZip(f: Frame, rk: seq<Value>) returns (r: Result<map<Value, Value>>)
      modifies f`stack
      ensures r.Ok? <==> |rk| <= |old(f.stack)|
      ensures r.Ok? ==> var s := old(f.stack); var k := |s| - |rk|;
        f.stack == s[..k] && r.value == ZipMap(rk, Reverse(s[k..]))
    {
      ghost var below := f.stack;
      var dct := map[];
      var i := 0;
      while i < |rk|
        invariant 0 <= i <= |rk| && i <= |below|
        invariant f.stack == below[..|below| - i]
        invariant dct == ZipMap(rk[..i], Reverse(below[|below| - i..]))
      {
        var value :- f.Pop();
        assert value == below[|below| - i - 1] && f.stack == below[..|below| - i - 1];
        ZipMapReversedStep(rk, below, i);
        dct := dct[rk[i] := value];
        i := i + 1;
      }
      assert rk[..i] == rk;
      return Ok(dct);
    }

    /**
     * BUILD_MAP_UNPACK: merge the mappings `stack[-n:]`, later ones
     * winning.  With n = 0 that slice is the whole stack.
     */
    method BuildMapUnpack(f: Frame, n: int) returns (r: Result<()>)
      modifies f`stack
      ensures var s := old(f.stack); var mm := MergeAll(host.mapping, From(s, -n));
        (r.Ok? <==> mm.Ok?) && (r.Ok? ==> f.stack == Upto(s, -n) + [VDict(mm.value)])
      ensures n == 0 && r.Ok? ==> f.stack == [VDict(MergeAll(host.mapping, old(f.stack)).value)]
    {
      NegativeZeroSuffix(f.stack);
      var maps := From(f.stack, -n);
      var merged := MergeMappings(maps);
      if merged.Err? {
        return Err(merged.error);
      }
      f.stack := Upto(f.stack, -n) + [VDict(merged.value)];
      return Ok(());
    }

    /** BUILD_MAP_UNPACK's `result.update(mapping)` loop over `maps`. */
    method MergeMappings(maps: seq<Value>) returns (r: Result<map<Value, Value>>)
      ensures var mm := MergeAll(host.mapping, maps); (r.Ok? <==> mm.Ok?) && (r.Ok? ==> r.value == mm.value)
    {
      var mapping := host.mapping;
      var res := map[];
      var i := 0;
      while i < |maps|
        invariant 0 <= i <= |maps|
        invariant MergeAll(mapping, maps[..i]) == Ok(res)
      {
        assert maps[..i + 1][..i] == maps[..i];
        var d := mapping(maps[i]);
        if d.Err? {
          MergeAllErrSticky(mapping, maps, i + 1);
          return Err(d.error);
        }
        res := res + d.value;
        i := i + 1;
      }
      assert maps[..i] == maps;
      return Ok(res);
    }

    /**
     * UNPACK_SEQUENCE: replace TOS by `list(reversed(TOS))`, so its first
     * item is the new TOS; a TOS that cannot be reversed is an error.
     */
    method UnpackSequence(f: Frame) returns (r: Result<()>)
      modifies f`stack
      ensures var s := old(f.stack);
        r.Ok? <==> s != [] && host.reversed(s[|s| - 1]).Ok?
      ensures r.Ok? ==> var s := old(f.stack);
        f.stack == s[..|s| - 1] + host.reversed(s[|s| - 1]).value
      ensures var s := old(f.stack);
        r.Ok? && ReversesElements(host, s[|s| - 1]) ==> f.stack == s[..|s| - 1] + Reverse(host.elements(s[|s| - 1]).value)
    {
      var sequence :- f.Pop();
      var items :- host.reversed(sequence);
      f.stack := f.stack + items;
      return Ok(());
    }

    /** UNPACK_EX: split TOS into trailing items, a starred list and leading items, as UnpackExPushed says. */
    method UnpackEx(f: Frame, argval: int) returns (r: Result<()>)
      modifies f`stack
      ensures var s := old(f.stack);
        r.Ok? <==> s != [] && host.elements(s[|s| - 1]).Ok?
      ensures r.Ok? ==> var s := old(f.stack);
        f.stack == s[..|s| - 1] + UnpackExPushed(host.elements(s[|s| - 1]).value, argval)
    {
      var top :- f.Pop();
      var items :- host.elements(top);
      var l := Reverse(items);
      var after, before := argval / 256, argval % 256;
      var inList := |l| - after - before;
      var pushed := Upto(l, after);
      pushed := pushed + [VList(Reverse(Slice(l, after, after + inList)))];
      pushed := pushed + From(l, -before);
      f.stack := f.stack + pushed;
      return Ok(());
    }

    /** BUILD_SLICE: with 2 or 3 operands, replace them by the host's slice of them in stack order; otherwise nothing. */
    method BuildSlice(f: Frame, k: int) returns (r: Result<()>)
      modifies f`stack
      ensures k != 2 && k != 3 ==> r.Ok? && f.stack == old(f.stack)
      ensures k == 2 || k == 3 ==> var s := old(f.stack);
        (r.Ok? <==> |s| >= k) && (r.Ok? ==> f.stack == s[..|s| - k] + [host.makeSlice(s[|s| - k..])])
    {
      var s := f.stack;
      var n := |s|;
      if k == 2 {
        if n < 2 {
          return Err(ValueError("not enough values to unpack"));
        }
        var first, second := s[n - 1], s[n - 2];
        f.stack := Upto(s, -2);
        assert s[n - 2..] == [second, first];
        f.Push(host.makeSlice([second, first]));
      }
      if k == 3 {
        if n < 3 {
          return Err(ValueError("not enough values to unpack"));
        }
        var first, second, third := s[n - 1], s[n - 2], s[n - 3];
        f.stack := Upto(s, -3);
        assert s[n - 3..] == [third, second, first];
        f.Push(host.makeSlice([third, second, first]));
      }
      return Ok(());
    }

    /** BUILD_STRING: join `stack[-n:]`; with n = 0 that slice is the whole stack. */
    method BuildString(f: Frame, n: int) returns (r: Result<()>)
      modifies f`stack
      ensures var s := old(f.stack); var j := host.join(From(s, -n));
        (r.Ok? <==> j.Ok?) && (r.Ok? ==> f.stack == Upto(s, -n) + [j.value])
      ensures n == 0 && r.Ok? ==> f.stack == [host.join(old(f.stack)).value]
    {
      NegativeZeroSuffix(f.stack);
      var joined :- host.join(From(f.stack, -n));
      f.stack := Upto(f.stack, -n);
      f.Push(joined);
      return Ok(());
    }

    /**
     * LIST_APPEND: pop TOS and append it to the list at `stack[-count]`
     * (`stack[0]` when count is 0).
     */
    method ListAppend(f: Frame, count: int) returns (r: Result<()>)
      modifies f`stack
      ensures var s := old(f.stack);
        r.Ok? <==> s != [] && At(s[..|s| - 1], -count).Some? && At(s[..|s| - 1], -count).value.VList?
      ensures r.Ok? ==> var s := old(f.stack); var below := s[..|s| - 1]; var p := Pos(|below|, -count);
        f.stack == below[p := VList(below[p].items + [s[|s| - 1]])]
    {
      var tos :- f.Pop();
      var dest := At(f.stack, -count);
      if dest.None? {
        return Err(IndexError("list index out of range"));
      }
      if !dest.value.VList? {
        return Err(TypeError("descriptor 'append' requires a 'list' object"));
      }
      var p := Pos(|f.stack|, -count);
      f.stack := f.stack[p := VList(dest.value.items + [tos])];
      return Ok(());
    }

    /** SET_ADD: pop TOS and add it, through the host, to the set at `stack[-count]`. */
    method SetAdd(f: Frame, count: int) returns (r: Result<()>)
      modifies f`stack
      ensures var s := old(f.stack);
        r.Ok? <==> (s != [] && At(s[..|s| - 1], -count).Some? &&
          host.setAdd(At(s[..|s| - 1], -count).value, s[|s| - 1]).Ok?)
      ensures r.Ok? ==> var s := old(f.stack); var below := s[..|s| - 1]; var p := Pos(|below|, -count);
        f.stack == below[p := host.setAdd(below[p], s[|s| - 1]).value]
    {
      var tos :- f.Pop();
      var dest := At(f.stack, -count);
      if dest.None? {
        return Err(IndexError("list index out of range"));
      }
      var added :- host.setAdd(dest.value, tos);
      var p := Pos(|f.stack|, -count);
      f.stack := f.stack[p := added];
      return Ok(());
    }

    /** MAP_ADD: pop the key (TOS) and the value below it, and store them into `stack[-count]`. */
    method MapAdd(f: Frame, count: int) returns (r: Result<()>)
      modifies f`stack
      ensures var s, n := old(f.stack), |old(f.stack)|;
        r.Ok? <==> (n >= 2 && At(s[..n - 2], -count).Some? &&
          StoreItem(At(s[..n - 2], -count).value, s[n - 1], s[n - 2]).Ok?)
      ensures r.Ok? ==> var s, n := old(f.stack), |old(f.stack)|; var below := s[..n - 2]; var p := Pos(|below|, -count);
        f.stack == below[p := StoreItem(below[p], s[n - 1], s[n - 2]).value]
    {
      var key :- f.Pop();
      var value :- f.Pop();
      var dest := At(f.stack, -count);
      if dest.None? {
        return Err(IndexError("list index out of range"));
      }
      var stored :- StoreItem(dest.value, key, value);
      var p := Pos(|f.stack|, -count);
      f.stack := f.stack[p := stored];
      return Ok(());
    }

    /**
     * MAKE_FUNCTION: pop name and code, then the parts the flag names, and
     * push the function BuiltFunction describes, once Function.__init__
     * has accepted its code and closure.
     */
    method MakeFunction(f: Frame, flag: int) returns (r: Result<()>)
      modifies f`stack
      ensures var s := old(f.stack);
        r.Ok? <==> |s| >= Arity(flag) && FunctionInit(host.elements, BuiltFunction(s, flag)).Ok?
      ensures r.Ok? ==> var s := old(f.stack);
        f.stack == s[..|s| - Arity(flag)] + [VFunction(BuiltFunction(s, flag))]
    {
      var parts := PopFunctionParts(f, flag);
      if parts.Err? {
        return Err(parts.error);
      }
      var made := FunctionInit(host.elements, parts.value);
      if made.Err? {
        return Err(made.error);
      }
      f.Push(VFunction(made.value));
      return Ok(());
    }

    /** The pops of MAKE_FUNCTION, gathered into the function they describe. */
    method PopFunctionParts(f: Frame, flag: int) returns (r: Result<FunctionValue>)
      modifies f`stack
      ensures var s := old(f.stack); r.Ok? <==> |s| >= Arity(flag)
      ensures r.Ok? ==> var s := old(f.stack);
        r.value == BuiltFunction(s, flag) && f.stack == s[..|s| - Arity(flag)]
    {
      ghost var s := f.stack;
      var d := DecodeFlags(flag);
      var name :- PopIf(f, true, VNone, s, 0);
      var code :- PopIf(f, true, VNone, s, 1);
      var closure :- PopIf(f, d.closure, VTuple([]), s, 2);
      ghost var k: nat := 2 + if d.closure then 1 else 0;
      var annotations :- PopIf(f, d.annotations, VDict(map[]), s, k);
      k := k + if d.annotations then 1 else 0;
      var kwDefaults :- PopIf(f, d.kwDefaults, VDict(map[]), s, k);
      k := k + if d.kwDefaults then 1 else 0;
      var posDefaults :- PopIf(f, d.posDefaults, VTuple([]), s, k);
      k := k + if d.posDefaults then 1 else 0;
      assert k == Arity(flag) && f.stack == s[..|s| - k];
      return Ok(FunctionValue(name, code, posDefaults, kwDefaults, annotations, closure));
    }

    /**
     * One pop of MAKE_FUNCTION, taken only when its flag test holds (else
     * the default), from a stack `s` that has already lost its top `k` items.
     */
    method PopIf(f: Frame, take: bool, default: Value, ghost s: seq<Value>, ghost k: nat) returns (r: Result<Value>)
      requires k <= |s| && f.stack == s[..|s| - k]
      modifies f`stack
      ensures !take ==> r == Ok(default) && f.stack == old(f.stack)
      ensures take ==> (r.Ok? <==> k < |s|) && (r.Ok? ==> r.value == s[|s| - 1 - k] && f.stack == s[..|s| - 1 - k])
    {
      if !take {
        return Ok(default);
      }
      r := f.Pop();
    }

    /**
     * RAISE_VARARGS: raise TOS, or the exception TOS called with TOS1 (the
     * three-operand form also pops the traceback), or re-raise.
     */
    method RaiseVarargs(f: Frame, k: int) returns (r: Result<()>)
      modifies f`stack
      ensures r.Err?
      ensures var s, n := old(f.stack), |old(f.stack)|;
        k == 1 && n >= 1 ==> r == Err(Raised(s[n - 1]))
      ensures var s, n := old(f.stack), |old(f.stack)|;
        (k == 2 || k == 3) && n >= k ==> var e := host.call(s[n - 1], [s[n - 2]], map[]);
          r == if e.Ok? then Err(Raised(e.value)) else Err(e.error)
      ensures k != 1 && k != 2 && k != 3 ==> r == Err(ReRaise)
    {
      if k == 1 {
        var first :- f.Pop();
        return Err(Raised(first));
      } else if k == 2 || k == 3 {
        var first :- f.Pop();
        var second :- f.Pop();
        if k == 3 {
          var traceback :- f.Pop();
        }
        var exc :- host.call(first, [second], map[]);
        return Err(Raised(exc));
      }
      return Err(ReRaise);
    }

    /** RETURN_VALUE: pop TOS onto the frame stack and stop the frame. */
    method ReturnValue(f: Frame) returns (r: Result<Flow>)
      modifies f`stack, this`frameStack
      ensures r.Ok? <==> old(f.stack) != []
      ensures r.Ok? ==> var s := old(f.stack);
        r.value == Returned && f.stack == s[..|s| - 1] && frameStack == old(frameStack) + [s[|s| - 1]]
      ensures r.Err? ==> frameStack == old(frameStack)
    {
      var v :- f.Pop();
      frameStack := frameStack + [v];
      return Ok(Returned);
    }

    // ------------------------------------------------------------ dispatch and the run loop

    /** Nothing outside `cur` changed: known frames other than `cur` are untouched. */
    twostate predicate Undisturbed(cur: Frame)
      reads this, repr
    {
      old(repr) <= repr && forall g: Frame | g in old(repr) && g != cur :: unchanged(g)
    }

    /** A call made from `cur` that came back clean: frame stack, other frames and `cur`'s control state as they were. */
    twostate predicate Quiet(cur: Frame)
      reads this, repr, cur
    {
      frameStack == old(frameStack) && frame == old(frame) && Undisturbed(cur) &&
      cur.ip == old(cur.ip) && cur.blockStack == old(cur.blockStack) && cur.instructionSet == old(cur.instructionSet)
    }

    /**
     * Function.__call__: bind the arguments through the host, rename the
     * comprehension arguments, make a frame for the function's code and
     * run it.
     */
    method FunctionCall(cur: Frame, fv: FunctionValue, pos: seq<Value>, kw: map<string, Value>, fuel: nat)
      returns (r: Result<Value>, ghost clean: bool, ghost nestedFellOff: bool)
      requires Valid() && frame == VFrame(cur) && cur in repr
      modifies this, repr
      decreases fuel, 3
      ensures Heap() && Grown()
      ensures r.Ok? ==> FramesOk()
      ensures host.bind(fv, pos, kw).Err? ==> r.Err? && clean
      ensures !fv.code.VCode? ==> r.Err? && clean
      ensures clean ==> Quiet(cur) && cur.stack == old(cur.stack)
      ensures r.Ok? ==> clean || nestedFellOff
      ensures Strayed(nestedFellOff) && (clean ==> !nestedFellOff)
      ensures r.Ok? && fv.code.VCode? && CallFree(fv.code.code.instructions) ==> clean || (r.value.VFrame? && fresh(r.value.frame))
    {
      clean, nestedFellOff := true, false;
      var bound :- host.bind(fv, pos, kw);
      var args := RenameImplicit(bound);
      if !fv.code.VCode? {
        return Err(AttributeError("co_cellvars")), true, false;
      }
      var nf :- Enter(cur, fv.code.code, args);
      label Made:
      ghost var fellOff, retStack, deeper;
      r, clean, fellOff, retStack, deeper := RunFrame(nf, fuel);
      nestedFellOff := fellOff || deeper;
      if clean {
        forall g: Frame | g in old(repr) && g != cur ensures unchanged(g) {
          assert g in old@Made(repr) && g != nf;
        }
        assert unchanged@Made(cur);
      }
    }

    /** make_frame as Function.__call__ uses it: only what the call chain needs to know. */
    method Enter(cur: Frame, code: Code, args: map<string, Value>) returns (r: Result<Frame>)
      requires Valid() && frame == VFrame(cur)
      modifies this`repr, cur, cur.globals
      ensures Valid() && Grown()
      ensures frameStack == old(frameStack) && frame == old(frame)
      ensures r.Ok? ==> fresh(r.value) && r.value in repr && r.value.code == code
      ensures cur.stack == old(cur.stack) && cur.ip == old(cur.ip) &&
        cur.blockStack == old(cur.blockStack) && cur.instructionSet == old(cur.instructionSet)
    {
      r := MakeFrame(code, args);
    }

    /** `func(*pos, **kw)`: a Function runs in this machine, anything else is the host's to call. */
    method CallValue(cur: Frame, func: Value, pos: seq<Value>, kw: map<string, Value>, fuel: nat)
      returns (r: Result<Value>, ghost clean: bool, ghost nestedFellOff: bool)
      requires Valid() && frame == VFrame(cur) && cur in repr
      modifies this, repr
      decreases fuel, 4
      ensures Heap() && Grown()
      ensures r.Ok? ==> FramesOk()
      ensures !func.VFunction? ==> r == host.call(func, pos, kw) && clean && !nestedFellOff
      ensures r.Ok? ==> clean || nestedFellOff
      ensures Strayed(nestedFellOff) && (clean ==> !nestedFellOff)
      ensures clean ==> Quiet(cur) && cur.stack == old(cur.stack)
    {
      if func.VFunction? {
        r, clean, nestedFellOff := FunctionCall(cur, func.fn, pos, kw, fuel);
      } else {
        r, clean, nestedFellOff := host.call(func, pos, kw), true, false;
      }
    }

    /**
     * `self.frame.stack.append(func(*pos, **kw))`: call, then push the
     * result onto whichever frame is current by then.
     */
    method Invoke(cur: Frame, func: Value, pos: seq<Value>, kw: map<string, Value>, fuel: nat)
      returns (r: Result<()>, ghost clean: bool, ghost nestedFellOff: bool)
      requires Valid() && frame == VFrame(cur) && cur in repr
      modifies this, repr
      decreases fuel, 5
      ensures Heap() && Grown()
      ensures r.Ok? ==> FramesOk()
      ensures clean ==> Quiet(cur)
      ensures r.Ok? ==> clean || nestedFellOff
      ensures Strayed(nestedFellOff) && (clean ==> !nestedFellOff)
      ensures !func.VFunction? ==> var call := host.call(func, pos, kw);
        clean && !nestedFellOff && (r.Ok? <==> call.Ok?) && (r.Ok? ==> cur.stack == old(cur.stack) + [call.value])
      ensures clean && r.Ok? ==> |cur.stack| == |old(cur.stack)| + 1 && cur.stack[..|old(cur.stack)|] == old(cur.stack)
    {
      var res;
      res, clean, nestedFellOff := CallValue(cur, func, pos, kw, fuel);
      if res.Err? {
        return Err(res.error), clean, nestedFellOff;
      }
      label Called:
      r := PushResult(res.value);
      if clean {
        forall g: Frame | g in old(repr) && g != cur ensures unchanged(g) {
          assert g in old@Called(repr);
        }
      }
    }

    /** `self.frame.stack.append(res)` after a call: onto whichever frame is current by then. */
    method PushResult(res: Value) returns (r: Result<()>)
      requires FramesOk()
      modifies (if frame.VFrame? then {frame.frame} else {})`stack
      ensures frame.VFrame? <==> r.Ok?
      ensures r.Ok? ==> frame.frame.stack == old(frame.frame.stack) + [res]
    {
      if !frame.VFrame? {
        return Err(AttributeError("stack"));
      }
      frame.frame.Push(res);
      return Ok(());
    }

    /**
     * CALL_FUNCTION: pop n arguments and the callee, call it with the
     * arguments in stack order and push the result.
     */
    method CallFunction(cur: Frame, n: int, fuel: nat) returns (r: Result<()>, ghost clean: bool, ghost nestedFellOff: bool)
      requires Valid() && frame == VFrame(cur) && cur in repr
      modifies this, repr
      decreases fuel, 6
      ensures Heap() && Grown()
      ensures r.Ok? ==> FramesOk()
      ensures clean ==> Quiet(cur)
      ensures r.Ok? ==> clean || nestedFellOff
      ensures Strayed(nestedFellOff) && (clean ==> !nestedFellOff)
      ensures var s, m := old(cur.stack), if n < 0 then 0 else n;
        (|s| < m + 1 ==> r.Err? && clean && !nestedFellOff) &&
        (|s| >= m + 1 && !s[|s| - m - 1].VFunction? ==>
          var call := host.call(s[|s| - m - 1], s[|s| - m..], map[]);
          clean && !nestedFellOff && (r.Ok? <==> call.Ok?) && (r.Ok? ==> cur.stack == s[..|s| - m - 1] + [call.value])) &&
        (clean && r.Ok? ==> |s| >= m + 1 && |cur.stack| == |s| - m && cur.stack[..|s| - m - 1] == s[..|s| - m - 1])
    {
      clean, nestedFellOff := true, false;
      ghost var s := cur.stack;
      var m := if n < 0 then 0 else n;
      var args :- PopArgs(cur, m);
      var func :- cur.Pop();
      assert func == s[|s| - m - 1] && args == s[|s| - m..] && cur.stack == s[..|s| - m - 1];
      r, clean, nestedFellOff := Invoke(cur, func, args, map[], fuel);
    }

    /** CALL_FUNCTION's `args.append(stack.pop())` loop and `reversed(args)`: the top m items in stack order. */
    method PopArgs(f: Frame, m: nat) returns (r: Result<seq<Value>>)
      modifies f`stack
      ensures var s := old(f.stack);
        (|s| < m ==> r.Err?) &&
        (|s| >= m ==> r == Ok(s[|s| - m..]) && f.stack == s[..|s| - m])
    {
      ghost var s := f.stack;
      var args := [];
      var i := 0;
      while i < m
        invariant 0 <= i <= m && i <= |s|
        invariant f.stack == s[..|s| - i]
        invariant args == Reverse(s[|s| - i..])
      {
        var v :- f.Pop();
        ghost var k := |s| - i;
        assert s[k - 1..][1..] == s[k..];
        args := args + [v];
        i := i + 1;
      }
      ReverseReverse(s[|s| - m..]);
      return Ok(Reverse(args));
    }

    /** The keyword names of CALL_FUNCTION_KW, which must all be strings. */
    static function Keywords(ns: seq<Value>): (r: Result<seq<string>>)
      ensures r.Ok? <==> forall i | 0 <= i < |ns| :: ns[i].VStr?
      ensures r.Ok? ==> |r.value| == |ns| && forall i | 0 <= i < |ns| :: r.value[i] == ns[i].s
    {
      if ns == [] then Ok([])
      else if !ns[0].VStr? then Err(TypeError("keywords must be strings"))
      else
        var rest :- Keywords(ns[1..]);
        Ok([ns[0].s] + rest)
    }

    /**
     * What CALL_FUNCTION_KW pops off stack `s`: the keyword names, then
     * `stack[-k:]` as their values (the whole stack when there are no
     * names), then the remaining `total - k` positional arguments, then
     * the callee.
     */
    function KwPops(s: seq<Value>, total: int): (r: Result<CallParts>)
      ensures r.Ok? ==> |r.value.rest| < |s| && r.value.rest == s[..|r.value.rest|]
    {
      if s == [] then Err(IndexError("pop from empty list"))
      else
        var ns :- host.elements(s[|s| - 1]);
        KwSplit(s[..|s| - 1], ns, total)
    }

    /** KwPops once the names `ns` have been popped off, leaving `s`. */
    static function KwSplit(s: seq<Value>, ns: seq<Value>, total: int): (r: Result<CallParts>)
      ensures r.Ok? ==> |r.value.rest| < |s| && r.value.rest == s[..|r.value.rest|]
    {
      var (s2, values) := CutTop(s, |ns|);
      var p := total - |ns|;
      var (s3, posargs) := if p != 0 then CutTop(s2, p) else (s2, []);
      if s3 == [] then Err(IndexError("pop from empty list"))
      else if Keywords(ns).Err? then Err(Keywords(ns).error)
      else Ok(CallParts(s3[..|s3| - 1], s3[|s3| - 1], posargs, Zip(Keywords(ns).value, values)))
    }

    /** `s[-k:]` read and then deleted: what stays below and what was taken. */
    static function CutTop(s: seq<Value>, k: int): (r: (seq<Value>, seq<Value>))
      ensures r.0 + r.1 == s
      ensures 1 <= k <= |s| ==> r.0 == s[..|s| - k] && r.1 == s[|s| - k..]
      ensures k == 0 ==> r.0 == [] && r.1 == s
    {
      UptoFrom(s, -k);
      if 1 <= k <= |s| then NegativeSuffix(s, k); (Upto(s, -k), From(s, -k))
      else (Upto(s, -k), From(s, -k))
    }

    /** With no keyword names CALL_FUNCTION_KW always fails: `stack[-0:]` takes every item, the callee included. */
    static lemma KwSplitNoNames(s: seq<Value>, total: int)
      ensures KwSplit(s, [], total).Err?
    {
      assert CutTop(s, 0) == ([], s);
    }

    /**
     * Once k >= 1 string names are popped, and with at least `total + 1`
     * items left, the callee lies under `total` arguments: the first
     * `total - k` are positional, the last k are the keywords' values in order.
     */
    static lemma {:induction false} KwSplitShape(s: seq<Value>, ns: seq<Value>, total: int)
      requires 1 <= |ns| <= total && |s| >= total + 1 && Keywords(ns).Ok?
      ensures var n, k := |s|, |ns|;
        KwSplit(s, ns, total) ==
          Ok(CallParts(s[..n - 1 - total], s[n - 1 - total], s[n - total..n - k], ZipMap(Keywords(ns).value, s[n - k..])))
    {
      var n, k, keys := |s|, |ns|, Keywords(ns).value;
      var s2, values := s[..n - k], s[n - k..];
      assert CutTop(s, k) == (s2, values);
      ZipEqualLengths(keys, values);
      if total - k != 0 {
        var s3 := s[..n - total];
        assert s2[..|s2| - (total - k)] == s3 && s2[|s2| - (total - k)..] == s[n - total..n - k];
        assert CutTop(s2, total - k) == (s3, s[n - total..n - k]);
        assert s3[..|s3| - 1] == s[..n - 1 - total];
      } else {
        assert s2[..|s2| - 1] == s[..n - 1 - total] && s[n - total..n - k] == [];
      }
    }

    /** CALL_FUNCTION_KW: call with positional and keyword arguments and push the result. */
    method CallFunctionKw(cur: Frame, total: int, fuel: nat) returns (r: Result<()>, ghost clean: bool, ghost nestedFellOff: bool)
      requires Valid() && frame == VFrame(cur) && cur in repr
      modifies this, repr
      decreases fuel, 6
      ensures Heap() && Grown()
      ensures r.Ok? ==> FramesOk()
      ensures clean ==> Quiet(cur)
      ensures r.Ok? ==> clean || nestedFellOff
      ensures Strayed(nestedFellOff) && (clean ==> !nestedFellOff)
      ensures var parts := KwPops(old(cur.stack), total);
        (parts.Err? ==> r.Err? && clean && !nestedFellOff) &&
        (parts.Ok? && !parts.value.func.VFunction? ==>
          var call := host.call(parts.value.func, parts.value.pos, parts.value.kw);
          clean && !nestedFellOff && (r.Ok? <==> call.Ok?) && (r.Ok? ==> cur.stack == parts.value.rest + [call.value])) &&
        (clean && r.Ok? ==> parts.Ok? && |cur.stack| == |parts.value.rest| + 1 && cur.stack[..|parts.value.rest|] == parts.value.rest)
    {
      clean, nestedFellOff := true, false;
      var parts :- KwPops(cur.stack, total);
      cur.stack := parts.rest;
      r, clean, nestedFellOff := Invoke(cur, parts.func, parts.pos, parts.kw, fuel);
    }

    /**
     * What CALL_FUNCTION_EX pops off stack `s`: the keyword mapping when
     * the flag is set, then the positional iterable, then the callee.
     */
    function ExPops(s: seq<Value>, flags: int): (r: Result<CallParts>)
      ensures r.Ok? ==> |r.value.rest| < |s| && r.value.rest == s[..|r.value.rest|]
      ensures |s| < (if flags == 0 then 2 else 3) ==> r == Err(IndexError("pop from empty list"))
    {
      var a := if flags == 0 then 1 else 2;
      if |s| < a + 1 then Err(IndexError("pop from empty list"))
      else
        var kw :- if flags == 0 then Ok(map[]) else host.keywords(s[|s| - 1]);
        var pos :- host.elements(s[|s| - a]);
        Ok(CallParts(s[..|s| - a - 1], s[|s| - a - 1], pos, kw))
    }

    /** CALL_FUNCTION_EX takes the callee from under its one or two argument items. */
    lemma {:induction false} ExPopsShape(s: seq<Value>, flags: int)
      requires |s| >= (if flags == 0 then 2 else 3)
      requires flags != 0 ==> host.keywords(s[|s| - 1]).Ok?
      requires host.elements(s[|s| - (if flags == 0 then 1 else 2)]).Ok?
      ensures var n, a := |s|, if flags == 0 then 1 else 2;
        ExPops(s, flags) ==
          Ok(CallParts(s[..n - a - 1], s[n - a - 1], host.elements(s[n - a]).value,
                       if flags == 0 then map[] else host.keywords(s[n - 1]).value))
    {
    }

    /** CALL_FUNCTION_EX: call with the unpacked arguments and push the result. */
    method CallFunctionEx(cur: Frame, flags: int, fuel: nat) returns (r: Result<()>, ghost clean: bool, ghost nestedFellOff: bool)
      requires Valid() && frame == VFrame(cur) && cur in repr
      modifies this, repr
      decreases fuel, 6
      ensures Heap() && Grown()
      ensures r.Ok? ==> FramesOk()
      ensures clean ==> Quiet(cur)
      ensures r.Ok? ==> clean || nestedFellOff
      ensures Strayed(nestedFellOff) && (clean ==> !nestedFellOff)
      ensures var parts := ExPops(old(cur.stack), flags);
        (parts.Err? ==> r.Err? && clean && !nestedFellOff) &&
        (parts.Ok? && !parts.value.func.VFunction? ==>
          var call := host.call(parts.value.func, parts.value.pos, parts.value.kw);
          clean && !nestedFellOff && (r.Ok? <==> call.Ok?) && (r.Ok? ==> cur.stack == parts.value.rest + [call.value])) &&
        (clean && r.Ok? ==> parts.Ok? && |cur.stack| == |parts.value.rest| + 1 && cur.stack[..|parts.value.rest|] == parts.value.rest)
    {
      clean, nestedFellOff := true, false;
      var parts :- ExPops(cur.stack, flags);
      cur.stack := parts.rest;
      r, clean, nestedFellOff := Invoke(cur, parts.func, parts.pos, parts.kw, fuel);
    }

    /** Opcodes served by the call handlers. */
    static predicate IsCall(op: Opcode) {
      op.CallFunction? || op.CallFunctionKw? || op.CallFunctionEx?
    }

    /** Opcodes that store an unconditional jump target. */
    static predicate IsJump(op: Opcode) {
      op.JumpAbsolute? || op.JumpForward? || op.ContinueLoop?
    }

    /** Opcodes whose handler may set `ip`. */
    static predicate MayJump(op: Opcode) {
      IsJump(op) || IsBranch(op) || op.BreakLoop?
    }

    /** The conditional jumps and FOR_ITER. */
    static predicate IsBranch(op: Opcode) {
      op.PopJumpIfFalse? || op.PopJumpIfTrue? || op.JumpIfTrueOrPop? || op.JumpIfFalseOrPop? || op.ForIter?
    }

    /**
     * Whether the branch `op` jumps when it starts from the operand stack
     * `s`: on TOS's truth for the conditional jumps, and at the iterator's
     * exhaustion for FOR_ITER.
     */
    predicate Jumps(op: Opcode, s: seq<Value>) {
      s != [] &&
      var tos := s[|s| - 1];
      if op.ForIter? then host.next(tos).Ok? && host.next(tos).value.None?
      else host.truthy(tos) == (op.PopJumpIfTrue? || op.JumpIfTrueOrPop?)
    }

    /** Opcodes that work on jumps and the block stack. */
    static predicate IsControl(op: Opcode) {
      MayJump(op) || op.SetupLoop? || op.PopBlock?
    }

    /** Opcodes that read or write names, attributes, items and cells. */
    static predicate IsScope(op: Opcode) {
      IsStore(op) || IsLoad(op) || IsDelete(op)
    }

    static predicate IsStore(op: Opcode) {
      op.StoreName? || op.StoreFast? || op.StoreGlobal? || op.StoreSubscr? || op.StoreAttr? ||
      op.StoreDeref? || op.SetupAnnotations? || op.StoreAnnotation?
    }

    static predicate IsLoad(op: Opcode) {
      op.LoadName? || op.LoadFast? || op.LoadGlobal? || op.LoadAttr? || op.LoadClosure? ||
      op.LoadDeref? || op.LoadClassDeref?
    }

    static predicate IsDelete(op: Opcode) {
      op.DeleteAttr? || op.DeleteFast? || op.DeleteGlobal? || op.DeleteName? ||
      op.DeleteSubscr? || op.DeleteDeref?
    }

    /**
     * The list surgery of the stack shuffles, BUILD_LIST and BUILD_TUPLE:
     * `t` is what `op` with operand `arg` leaves of stack `s`, and `ok`
     * says whether it succeeded.  Everything below the touched items stays.
     */
    static predicate StackSurgery(op: Opcode, arg: Arg, s: seq<Value>, t: seq<Value>, ok: bool) {
      Reshapes(op) ==>
      var n := |s|;
      if op.DupTop? then (ok <==> n >= 1) && (ok ==> t == s[..n - 1] + [s[n - 1], s[n - 1]])
      else if op.DupTopTwo? then (ok <==> n >= 2) && (ok ==> t == s[..n - 2] + [s[n - 2], s[n - 1], s[n - 2], s[n - 1]])
      else if op.PopTop? then (ok <==> n >= 1) && (ok ==> t == s[..n - 1])
      else if op.RotTwo? then (ok <==> n >= 2) && (ok ==> t == s[..n - 2] + [s[n - 1], s[n - 2]])
      else if op.RotThree? then (ok <==> n >= 3) && (ok ==> t == s[..n - 3] + [s[n - 1], s[n - 3], s[n - 2]])
      else if op.BuildList? && arg.IntArg? then ok && t == Kept(s, arg.n) + [VList(Taken(s, arg.n))]
      else if op.BuildTuple? && arg.IntArg? then ok && t == Kept(s, arg.n) + [VTuple(Taken(s, arg.n))]
      else true
    }

    /** The stack shuffles, BUILD_LIST and BUILD_TUPLE. */
    static predicate Reshapes(op: Opcode) {
      op.DupTop? || op.DupTopTwo? || op.PopTop? || op.RotTwo? || op.RotThree? || op.BuildList? || op.BuildTuple?
    }

    /**
     * The instruction `op` with operand `arg`, run on operand stack `s`,
     * does not call a Function of this machine: it is no call, or it fails
     * before calling, or its callee is the host's.
     */
    predicate CallsNoFunction(op: Opcode, arg: Arg, s: seq<Value>) {
      !IsCall(op) || !arg.IntArg? ||
      (op.CallFunction? && var m := if arg.n < 0 then 0 else arg.n; |s| < m + 1 || !s[|s| - m - 1].VFunction?) ||
      (op.CallFunctionKw? && (KwPops(s, arg.n).Err? || !KwPops(s, arg.n).value.func.VFunction?)) ||
      (op.CallFunctionEx? && (ExPops(s, arg.n).Err? || !ExPops(s, arg.n).value.func.VFunction?))
    }

    /** No instruction of `instrs` is a call opcode. */
    static predicate CallFree(instrs: seq<Instruction>) {
      forall i | 0 <= i < |instrs| :: !IsCall(instrs[i].op)
    }

    /** No slot of an instruction array holds a call opcode. */
    static predicate CallFreeSlots(slots: seq<Option<Instruction>>) {
      forall k | 0 <= k < |slots| && slots[k].Some? :: !IsCall(slots[k].value.op)
    }

    /** Laying out call-free code gives a call-free instruction array. */
    static lemma {:induction false} LayoutCallFree(instrs: seq<Instruction>)
      ensures CallFree(instrs) ==> CallFreeSlots(Layout(instrs))
      decreases |instrs|
    {
      if instrs != [] && CallFree(instrs) {
        var front, last := instrs[..|instrs| - 1], instrs[|instrs| - 1];
        assert CallFree(front) by {
          forall i | 0 <= i < |front| ensures !IsCall(front[i].op) {
            assert front[i] == instrs[i];
          }
        }
        LayoutCallFree(front);
        var slots := Layout(front);
        var gap := Nones(last.offset - |slots|);
        assert Layout(instrs) == slots + gap + [Some(last)];
        forall k | 0 <= k < |Layout(instrs)| && Layout(instrs)[k].Some? ensures !IsCall(Layout(instrs)[k].value.op) {
          if k < |slots| {
            assert Layout(instrs)[k] == slots[k];
          }
        }
      }
    }

    /** The name, attribute, item and cell handlers. */
    method DispatchScope(cur: Frame, op: Opcode, instr: Instruction) returns (r: Result<()>)
      requires Heap() && cur in repr
      modifies cur`stack, cur`cells, cur.locals, cur.globals, cur.cells.Values
      ensures Heap()
      ensures cur.cells.Values <= old(cur.cells).Values
    {
      if IsStore(op) {
        r := DispatchStore(cur, op, instr);
      } else if IsLoad(op) {
        r := DispatchLoad(cur, op, instr);
      } else if IsDelete(op) {
        r := DispatchDelete(cur, op, instr);
      } else {
        r := Err(Unmodelled("not a name opcode"));
      }
    }

    /** The STORE_* handlers and the annotation handlers. */
    method DispatchStore(cur: Frame, op: Opcode, instr: Instruction) returns (r: Result<()>)
      requires Heap() && cur in repr
      modifies cur`stack, cur`cells, cur.locals, cur.globals, cur.cells.Values
      ensures Heap()
      ensures cur.cells.Values <= old(cur.cells).Values
    {
      match op
      case StoreName =>
        var name :- NameOf(instr.arg);
        r := StoreLocal(cur, name);
      case StoreFast =>
        var name :- NameOf(instr.arg);
        r := StoreLocal(cur, name);
      case StoreGlobal =>
        var name :- NameOf(instr.arg);
        r := StoreGlobal(cur, name);
      case StoreSubscr =>
        r := StoreSubscr(cur);
      case StoreAttr =>
        var name :- NameOf(instr.arg);
        r := StoreAttr(cur, name);
      case StoreDeref =>
        var name :- NameOf(instr.arg);
        r := StoreDeref(cur, name);
      case SetupAnnotations =>
        SetupAnnotations(cur);
        r := Ok(());
      case StoreAnnotation =>
        var name :- NameOf(instr.arg);
        r := StoreAnnotation(cur, name);
      case _ =>
        r := Err(Unmodelled("not a store opcode"));
    }

    /** The LOAD_* handlers that read a name. */
    method DispatchLoad(cur: Frame, op: Opcode, instr: Instruction) returns (r: Result<()>)
      requires Heap() && cur in repr
      modifies cur`stack, cur`cells, cur.locals, cur.globals, cur.cells.Values
      ensures Heap()
      ensures cur.cells.Values <= old(cur.cells).Values
    {
      match op
      case LoadName =>
        var name :- NameOf(instr.arg);
        LoadName(cur, name);
        r := Ok(());
      case LoadFast =>
        var name :- NameOf(instr.arg);
        r := LoadFast(cur, name);
      case LoadGlobal =>
        var name :- NameOf(instr.arg);
        r := LoadGlobal(cur, name);
      case LoadAttr =>
        var name :- NameOf(instr.arg);
        r := LoadAttr(cur, name);
      case LoadClosure =>
        var name :- NameOf(instr.arg);
        r := LoadClosure(cur, name);
      case LoadDeref =>
        var name :- NameOf(instr.arg);
        r := LoadDeref(cur, name);
      case LoadClassDeref =>
        var name :- NameOf(instr.arg);
        r := LoadClassDeref(cur, name);
      case _ =>
        r := Err(Unmodelled("not a load opcode"));
    }

    /** The DELETE_* handlers. */
    method DispatchDelete(cur: Frame, op: Opcode, instr: Instruction) returns (r: Result<()>)
      requires Heap() && cur in repr
      modifies cur`stack, cur`cells, cur.locals, cur.globals, cur.cells.Values
      ensures Heap()
      ensures cur.cells.Values <= old(cur.cells).Values
    {
      match op
      case DeleteAttr =>
        var name :- NameOf(instr.arg);
        r := DeleteAttr(cur, name);
      case DeleteFast =>
        var name :- NameOf(instr.arg);
        r := DeleteFast(cur, name);
      case DeleteGlobal =>
        var name :- NameOf(instr.arg);
        r := DeleteGlobal(cur, name);
      case DeleteName =>
        var name :- NameOf(instr.arg);
        r := DeleteName(cur, name);
      case DeleteSubscr =>
        r := DeleteSubscr(cur);
      case DeleteDeref =>
        var name :- NameOf(instr.arg);
        r := DeleteDeref(cur, name);
      case _ =>
        r := Err(Unmodelled("not a delete opcode"));
    }

    /** The jump and block handlers. */
    method DispatchControl(cur: Frame, op: Opcode, instr: Instruction) returns (r: Result<()>)
      modifies cur`stack, cur`ip, cur`blockStack
      ensures !MayJump(op) ==> cur.ip == old(cur.ip)
      ensures IsBranch(op) && instr.arg.IntArg? && r.Ok? ==>
        cur.ip == if Jumps(op, old(cur.stack)) then instr.arg.n - 1 else old(cur.ip)
      ensures IsJump(op) && instr.arg.IntArg? ==>
        r.Ok? && cur.ip == instr.arg.n - 1 && cur.stack == old(cur.stack) && cur.blockStack == old(cur.blockStack)
      ensures op.BreakLoop? ==> var b := old(cur.blockStack);
        (r.Ok? <==> b != []) && (r.Ok? ==> cur.blockStack == b[..|b| - 1] && cur.ip == b[|b| - 1].end - 1)
      ensures op.SetupLoop? && instr.arg.IntArg? ==>
        r.Ok? && cur.blockStack == old(cur.blockStack) + [Block(instr.offset, instr.arg.n)] && cur.stack == old(cur.stack)
    {
      if IsJump(op) {
        var t :- IntOf(instr.arg);
        JumpTo(cur, t);
        r := Ok(());
      } else if op.SetupLoop? {
        var t :- IntOf(instr.arg);
        SetupLoop(cur, instr.offset, t);
        r := Ok(());
      } else if op.BreakLoop? {
        r := BreakLoop(cur);
      } else if op.PopBlock? {
        r := PopBlock(cur);
      } else if MayJump(op) {
        r := DispatchBranch(cur, op, instr);
      } else {
        r := Err(Unmodelled("not a control opcode"));
      }
    }

    /** The conditional jumps and FOR_ITER, which leave the block stack alone. */
    method DispatchBranch(cur: Frame, op: Opcode, instr: Instruction) returns (r: Result<()>)
      modifies cur`stack, cur`ip
      ensures IsBranch(op) && instr.arg.IntArg? && r.Ok? ==>
        cur.ip == if Jumps(op, old(cur.stack)) then instr.arg.n - 1 else old(cur.ip)
    {
      if !IsBranch(op) {
        return Err(Unmodelled("not a branch opcode"));
      }
      var t :- IntOf(instr.arg);
      if op.PopJumpIfFalse? || op.PopJumpIfTrue? {
        r := PopJumpIf(cur, op.PopJumpIfTrue?, t);
      } else if op.JumpIfTrueOrPop? || op.JumpIfFalseOrPop? {
        r := JumpIfOrPop(cur, op.JumpIfTrueOrPop?, t);
      } else {
        r := ForIter(cur, t);
      }
    }

    /** The operand-stack handlers, and the opcodes this model does not run. */
    method DispatchStack(cur: Frame, op: Opcode, instr: Instruction) returns (r: Result<()>)
      modifies cur`stack
      ensures op.Unknown? ==> r == Err(AttributeError(op.opname))
      ensures op.ExtendedArg? || op.PopExcept? ==> r.Ok? && cur.stack == old(cur.stack)
      ensures StackSurgery(op, instr.arg, old(cur.stack), cur.stack, r.Ok?)
    {
      if op.Unknown? {
        r := Err(AttributeError(op.opname));
      } else if op.ExtendedArg? || op.PopExcept? {
        r := Ok(());
      } else if op.DupTop? {
        r := DupTop(cur);
      } else if op.DupTopTwo? {
        r := DupTopTwo(cur);
      } else if op.PopTop? {
        r := PopTop(cur);
      } else if op.RotTwo? {
        r := RotTwo(cur);
      } else if op.RotThree? {
        r := RotThree(cur);
      } else if (op.BuildList? || op.BuildTuple?) && instr.arg.IntArg? {
        if op.BuildList? {
          BuildList(cur, instr.arg.n);
        } else {
          BuildTuple(cur, instr.arg.n);
        }
        r := Ok(());
      } else {
        r := DispatchOperand(cur, op, instr);
      }
    }

    /** The handlers that work on the operand stack alone. */
    method DispatchOperand(cur: Frame, op: Opcode, instr: Instruction) returns (r: Result<()>)
      modifies cur`stack
    {
      match op
      case LoadConst =>
        LoadConst(cur, ConstOf(instr.arg));
        r := Ok(());
      case Unary(u) =>
        r := Unary(cur, u);
      case Binary(b) =>
        r := Binary(cur, b);
      case CompareOp =>
        var name :- NameOf(instr.arg);
        r := CompareOp(cur, name);
      case GetIter =>
        r := GetIter(cur);
      case BuildList =>
        var n :- IntOf(instr.arg);
        BuildList(cur, n);
        r := Ok(());
      case BuildListUnpack =>
        var n :- IntOf(instr.arg);
        r := BuildListUnpack(cur, n);
      case BuildTuple =>
        var n :- IntOf(instr.arg);
        BuildTuple(cur, n);
        r := Ok(());
      case BuildTupleUnpack | BuildTupleUnpackWithCall =>
        var n :- IntOf(instr.arg);
        r := BuildTupleUnpack(cur, n);
      case BuildSet =>
        var n :- IntOf(instr.arg);
        r := BuildSet(cur, n);
      case BuildSetUnpack =>
        var n :- IntOf(instr.arg);
        r := BuildSetUnpack(cur, n);
      case BuildMap =>
        var n :- IntOf(instr.arg);
        r := BuildMap(cur, n);
      case BuildConstKeyMap =>
        r := BuildConstKeyMap(cur);
      case BuildMapUnpack =>
        var n :- IntOf(instr.arg);
        r := BuildMapUnpack(cur, n);
      case UnpackSequence =>
        r := UnpackSequence(cur);
      case UnpackEx =>
        var n :- IntOf(instr.arg);
        r := UnpackEx(cur, n);
      case BuildSlice =>
        var n :- IntOf(instr.arg);
        r := BuildSlice(cur, n);
      case BuildString =>
        var n :- IntOf(instr.arg);
        r := BuildString(cur, n);
      case ListAppend =>
        var n :- IntOf(instr.arg);
        r := ListAppend(cur, n);
      case SetAdd =>
        var n :- IntOf(instr.arg);
        r := SetAdd(cur, n);
      case MapAdd =>
        var n :- IntOf(instr.arg);
        r := MapAdd(cur, n);
      case MakeFunction =>
        var n :- IntOf(instr.arg);
        r := MakeFunction(cur, n);
      case RaiseVarargs =>
        var n :- IntOf(instr.arg);
        r := RaiseVarargs(cur, n);
      case LoadBuildClass =>
        r := Err(Unmodelled("LOAD_BUILD_CLASS"));
      case ImportName =>
        r := Err(Unmodelled("IMPORT_NAME"));
      case ImportFrom =>
        r := Err(Unmodelled("IMPORT_FROM"));
      case ImportStar =>
        r := Err(Unmodelled("IMPORT_STAR"));
      case _ =>
        r := Err(Unmodelled("not a stack opcode"));
    }

    /** The handlers that touch only the current frame and its namespaces and cells. */
    method DispatchLocal(cur: Frame, op: Opcode, instr: Instruction) returns (r: Result<()>)
      requires Heap() && cur in repr
      modifies cur`stack, cur`ip, cur`blockStack, cur`cells, cur.locals, cur.globals, cur.cells.Values
      ensures Heap()
      ensures !MayJump(op) ==> cur.ip == old(cur.ip)
      ensures IsJump(op) && instr.arg.IntArg? ==>
        r.Ok? && cur.ip == instr.arg.n - 1 && cur.stack == old(cur.stack) && cur.blockStack == old(cur.blockStack)
      ensures op.BreakLoop? ==> var b := old(cur.blockStack);
        (r.Ok? <==> b != []) && (r.Ok? ==> cur.blockStack == b[..|b| - 1] && cur.ip == b[|b| - 1].end - 1)
      ensures op.SetupLoop? && instr.arg.IntArg? ==>
        r.Ok? && cur.blockStack == old(cur.blockStack) + [Block(instr.offset, instr.arg.n)] && cur.stack == old(cur.stack)
      ensures IsBranch(op) && instr.arg.IntArg? && r.Ok? ==>
        cur.ip == if Jumps(op, old(cur.stack)) then instr.arg.n - 1 else old(cur.ip)
      ensures StackSurgery(op, instr.arg, old(cur.stack), cur.stack, r.Ok?)
    {
      if IsControl(op) {
        assert !Reshapes(op);
        r := DispatchControl(cur, op, instr);
      } else if IsScope(op) {
        assert !Reshapes(op) && !IsBranch(op);
        r := DispatchScope(cur, op, instr);
      } else {
        r := DispatchStack(cur, op, instr);
      }
    }

    /** The call handlers. */
    method DispatchCall(cur: Frame, op: Opcode, instr: Instruction, fuel: nat) returns (r: Result<()>, ghost clean: bool, ghost nestedFellOff: bool)
      requires Valid() && frame == VFrame(cur) && cur in repr
      modifies this, repr
      decreases fuel, 7
      ensures Heap() && Grown()
      ensures r.Ok? ==> FramesOk()
      ensures clean ==> Quiet(cur)
      ensures CallsNoFunction(op, instr.arg, old(cur.stack)) ==> clean && !nestedFellOff
      ensures r.Ok? ==> clean || nestedFellOff
      ensures Strayed(nestedFellOff) && (clean ==> !nestedFellOff)
    {
      clean, nestedFellOff := true, false;
      match op
      case CallFunction =>
        var n :- IntOf(instr.arg);
        r, clean, nestedFellOff := CallFunction(cur, n, fuel);
      case CallFunctionKw =>
        var n :- IntOf(instr.arg);
        r, clean, nestedFellOff := CallFunctionKw(cur, n, fuel);
      case CallFunctionEx =>
        var n :- IntOf(instr.arg);
        r, clean, nestedFellOff := CallFunctionEx(cur, n, fuel);
      case _ =>
        r := Err(Unmodelled("not a call opcode"));
    }

    /** `getattr(self, opname)(instr)`: run one instruction's handler on the current frame `cur`. */
    method Dispatch(cur: Frame, op: Opcode, instr: Instruction, fuel: nat) returns (r: Result<Flow>, ghost clean: bool, ghost nestedFellOff: bool)
      requires Valid() && frame == VFrame(cur) && cur in repr
      modifies this, repr
      decreases fuel, 9
      ensures Heap() && Grown()
      ensures r == Ok(Proceed) ==> FramesOk()
      ensures r == Ok(Returned) ==> op.ReturnValue?
      ensures op.ReturnValue? ==> var s := old(cur.stack);
        clean && (r.Ok? <==> s != []) &&
        (r.Ok? ==> (r.value == Returned && frame == old(frame) && cur.stack == s[..|s| - 1] &&
          frameStack == old(frameStack) + [s[|s| - 1]]))
      ensures clean && !op.ReturnValue? ==> frameStack == old(frameStack) && frame == old(frame)
      ensures clean ==> Undisturbed(cur) && cur.instructionSet == old(cur.instructionSet)
      ensures clean && !MayJump(op) ==> cur.ip == old(cur.ip)
      ensures IsJump(op) && instr.arg.IntArg? ==>
        r == Ok(Proceed) && clean && cur.ip == instr.arg.n - 1 && cur.stack == old(cur.stack) &&
        cur.blockStack == old(cur.blockStack)
      ensures op.BreakLoop? ==> var b := old(cur.blockStack);
        clean && (r.Ok? <==> b != []) && (r.Ok? ==> cur.blockStack == b[..|b| - 1] && cur.ip == b[|b| - 1].end - 1)
      ensures op.SetupLoop? && instr.arg.IntArg? ==>
        r == Ok(Proceed) && clean && cur.blockStack == old(cur.blockStack) + [Block(instr.offset, instr.arg.n)]
      ensures CallsNoFunction(op, instr.arg, old(cur.stack)) ==> clean && !nestedFellOff
      ensures r.Ok? ==> clean || nestedFellOff
      ensures Strayed(nestedFellOff) && (clean ==> !nestedFellOff)
      ensures clean && IsBranch(op) && instr.arg.IntArg? && r == Ok(Proceed) ==>
        cur.ip == if Jumps(op, old(cur.stack)) then instr.arg.n - 1 else old(cur.ip)
      ensures clean ==> StackSurgery(op, instr.arg, old(cur.stack), cur.stack, r == Ok(Proceed))
    {
      clean, nestedFellOff := true, false;
      if op.ReturnValue? {
        r := ReturnValue(cur);
        return;
      }
      var done;
      done, clean, nestedFellOff := DispatchOther(cur, op, instr, fuel);
      r := if done.Ok? then Ok(Proceed) else Err(done.error);
    }

    /** Every handler but RETURN_VALUE. */
    method DispatchOther(cur: Frame, op: Opcode, instr: Instruction, fuel: nat) returns (r: Result<()>, ghost clean: bool, ghost nestedFellOff: bool)
      requires Valid() && frame == VFrame(cur) && cur in repr && !op.ReturnValue?
      modifies this, repr
      decreases fuel, 8
      ensures Heap() && Grown()
      ensures r.Ok? ==> FramesOk()
      ensures clean ==> (frameStack == old(frameStack) && frame == old(frame) &&
        Undisturbed(cur) && cur.instructionSet == old(cur.instructionSet))
      ensures clean && !MayJump(op) ==> cur.ip == old(cur.ip)
      ensures IsJump(op) && instr.arg.IntArg? ==>
        r.Ok? && clean && cur.ip == instr.arg.n - 1 && cur.stack == old(cur.stack) &&
        cur.blockStack == old(cur.blockStack)
      ensures op.BreakLoop? ==> var b := old(cur.blockStack);
        clean && (r.Ok? <==> b != []) && (r.Ok? ==> cur.blockStack == b[..|b| - 1] && cur.ip == b[|b| - 1].end - 1)
      ensures op.SetupLoop? && instr.arg.IntArg? ==>
        r.Ok? && clean && cur.blockStack == old(cur.blockStack) + [Block(instr.offset, instr.arg.n)]
      ensures CallsNoFunction(op, instr.arg, old(cur.stack)) ==> clean && !nestedFellOff
      ensures r.Ok? ==> clean || nestedFellOff
      ensures Strayed(nestedFellOff) && (clean ==> !nestedFellOff)
      ensures clean && IsBranch(op) && instr.arg.IntArg? && r.Ok? ==>
        cur.ip == if Jumps(op, old(cur.stack)) then instr.arg.n - 1 else old(cur.ip)
      ensures clean ==> StackSurgery(op, instr.arg, old(cur.stack), cur.stack, r.Ok?)
    {
      if IsCall(op) {
        assert !Reshapes(op) && !IsBranch(op) && !MayJump(op);
        r, clean, nestedFellOff := DispatchCall(cur, op, instr, fuel);
      } else {
        r := DispatchLocal(cur, op, instr);
        clean, nestedFellOff := true, false;
      }
    }

    /**
     * One pass of run_frame's loop on the current frame: skip an empty slot,
     * or run the instruction (INPLACE_* as BINARY_*) and step `ip` past it.
     */
    method Step(fuel: nat) returns (r: Result<Flow>, ghost clean: bool, ghost nestedFellOff: bool)
      requires Valid() && frame.VFrame?
      modifies this, repr
      decreases fuel, 10
      ensures Heap() && Grown()
      ensures r == Ok(Proceed) ==> FramesOk()
      ensures r.Ok? ==> clean || nestedFellOff
      ensures Strayed(nestedFellOff) && (clean ==> !nestedFellOff)
      ensures var cur, s := old(frame).frame, old(frame.frame.stack);
        r == Ok(Returned) ==>
          s != [] && frame == old(frame) && cur.stack == s[..|s| - 1] && frameStack == old(frameStack) + [s[|s| - 1]]
      ensures var cur := old(frame).frame;
        clean ==> (Undisturbed(cur) && cur.instructionSet == old(cur.instructionSet) &&
          (r == Ok(Proceed) ==> frameStack == old(frameStack) && frame == old(frame)))
      ensures var cur := old(frame).frame; var slot := At(old(cur.instructionSet), old(cur.ip));
        (slot == None ==> r.Err? && clean && !nestedFellOff) &&
        (slot == Some(None) ==>
          r == Ok(Proceed) && clean && !nestedFellOff && cur.ip == old(cur.ip) + 1 && cur.stack == old(cur.stack) &&
          cur.blockStack == old(cur.blockStack)) &&
        (slot.Some? && slot.value.Some? ==> var instr := slot.value.value; var op := Canonical(instr.op);
          (IsJump(op) && instr.arg.IntArg? ==> r == Ok(Proceed) && clean && cur.ip == instr.arg.n) &&
          (op.BreakLoop? ==> var b := old(cur.blockStack);
            (r.Ok? <==> b != []) && (r.Ok? ==> cur.blockStack == b[..|b| - 1] && cur.ip == b[|b| - 1].end)) &&
          (!MayJump(op) && clean && r == Ok(Proceed) ==> cur.ip == old(cur.ip) + 1) &&
          (CallsNoFunction(op, instr.arg, old(cur.stack)) ==> clean && !nestedFellOff) &&
          (clean && IsBranch(op) && instr.arg.IntArg? && r == Ok(Proceed) ==>
            cur.ip == if Jumps(op, old(cur.stack)) then instr.arg.n else old(cur.ip) + 1) &&
          (clean ==> StackSurgery(op, instr.arg, old(cur.stack), cur.stack, r == Ok(Proceed))))
    {
      var cur := frame.frame;
      var slot := At(cur.instructionSet, cur.ip);
      if slot.None? {
        return Err(IndexError("list index out of range")), true, false;
      }
      if slot.value.None? {
        cur.ip := cur.ip + 1;
        return Ok(Proceed), true, false;
      }
      var instr := slot.value.value;
      var flow;
      flow, clean, nestedFellOff := Dispatch(cur, Canonical(instr.op), instr, fuel);
      if flow.Err? || flow.value == Returned {
        return flow, clean, nestedFellOff;
      }
      if !frame.VFrame? {
        return Err(AttributeError("ip")), false, nestedFellOff;
      }
      frame.frame.ip := frame.frame.ip + 1;
      return Ok(Proceed), clean, nestedFellOff;
    }

    /** One pass of run_frame's loop, as the loop needs to know it. */
    method Tick(f: Frame, fuel: nat) returns (r: Result<Flow>, ghost clean: bool, ghost nestedFellOff: bool)
      requires Valid() && frame == VFrame(f) && f in repr
      modifies this, repr
      decreases fuel, 11
      ensures Heap() && Grown()
      ensures r == Ok(Proceed) ==> FramesOk()
      ensures var s := old(f.stack);
        r == Ok(Returned) ==>
          s != [] && frame == old(frame) && f.stack == s[..|s| - 1] && frameStack == old(frameStack) + [s[|s| - 1]]
      ensures clean ==> (Undisturbed(f) && f.instructionSet == old(f.instructionSet) &&
        (r == Ok(Proceed) ==> frameStack == old(frameStack) && frame == old(frame)))
      ensures CallFreeSlots(old(f.instructionSet)) ==> clean && !nestedFellOff
      ensures r.Ok? ==> clean || nestedFellOff
      ensures Strayed(nestedFellOff) && (clean ==> !nestedFellOff)
    {
      r, clean, nestedFellOff := Step(fuel);
    }

    /**
     * run_frame: push `f`, lay out its instructions and step until
     * RETURN_VALUE or until `ip` runs past the end; then pop the top of the
     * frame stack (the returned value, or `f` itself when the code ran off
     * its end) and the frame below it.  `fuel` bounds the number of steps.
     * `clean` says the run returned and every call in it came back clean;
     * `retStack` is `f`'s operand stack just before its RETURN_VALUE;
     * `nestedFellOff` says a run nested in one of its calls fell off its end.
     */
    method RunFrame(f: Frame, fuel: nat) returns (r: Result<Value>, ghost clean: bool, ghost fellOff: bool, ghost retStack: seq<Value>, ghost nestedFellOff: bool)
      requires Valid() && f in repr
      modifies this, repr
      decreases fuel, 2
      ensures Heap() && Grown()
      ensures r.Ok? ==> FramesOk()
      ensures fuel == 0 ==> r.Err? || fellOff
      ensures clean ==> r.Ok? && frameStack == old(frameStack) && frame == old(frame) && Undisturbed(f)
      ensures clean ==> retStack != [] && r == Ok(retStack[|retStack| - 1]) && f.stack == retStack[..|retStack| - 1]
      ensures clean || fellOff ==> f.instructionSet == Layout(f.code.instructions)
      ensures fellOff ==> (Undisturbed(f) && f.ip >= |f.instructionSet| &&
        (old(frameStack) == [] ==> r.Err?) &&
        (old(frameStack) != [] ==> r == Ok(VFrame(f)) && frameStack == old(frameStack)[..|old(frameStack)| - 1]))
      ensures r.Ok? ==> clean || fellOff || nestedFellOff
      ensures Strayed(fellOff || nestedFellOff) && (fellOff ==> strays[|strays| - 1] == f)
      ensures clean ==> !fellOff && !nestedFellOff
      ensures CallFree(f.code.instructions) ==> !nestedFellOff
      ensures r.Ok? && CallFree(f.code.instructions) ==> clean || fellOff
    {
      clean, fellOff, retStack, nestedFellOff := false, false, [], false;
      var looped;
      ghost var tidy, returned;
      looped, tidy, returned, retStack, nestedFellOff := Execute(f, fuel);
      if looped.Err? {
        return Err(looped.error), false, false, [], nestedFellOff;
      }
      fellOff := tidy && !returned;
      ghost var mid := strays;
      strays := strays + if fellOff then [f] else [];
      assert Strayed(fellOff || nestedFellOff) by {
        assert strays[..|mid|] == mid;
      }
      var top := Unwind();
      if top.Err? {
        return Err(top.error), false, fellOff, [], nestedFellOff;
      }
      return top, tidy && returned, fellOff, retStack, nestedFellOff;
    }

    /**
     * run_frame up to the end of its loop: push `f`, lay out its
     * instructions and run the loop on it, with RunLoop's outcomes.
     */
    method Execute(f: Frame, fuel: nat)
      returns (r: Result<()>, ghost tidy: bool, ghost returned: bool, ghost retStack: seq<Value>, ghost nestedFellOff: bool)
      requires Valid() && f in repr
      modifies this, repr
      decreases fuel, 1
      ensures Heap() && Grown()
      ensures r.Ok? && !returned ==> FramesOk()
      ensures r.Ok? && returned ==> (|frameStack| >= 1 &&
        forall i | 0 <= i < |frameStack| - 1 :: frameStack[i].VFrame? && frameStack[i].frame in repr)
      ensures fuel == 0 ==> r.Err? || (tidy && !returned)
      ensures r.Ok? && tidy && !returned ==>
        frameStack == old(frameStack) + [VFrame(f)] && Undisturbed(f) &&
        f.instructionSet == Layout(f.code.instructions) && f.ip >= |f.instructionSet|
      ensures r.Ok? && tidy && returned ==>
        retStack != [] && frameStack == old(frameStack) + [VFrame(f), retStack[|retStack| - 1]] &&
        f.stack == retStack[..|retStack| - 1] && Undisturbed(f) && f.instructionSet == Layout(f.code.instructions)
      ensures r.Ok? ==> tidy || nestedFellOff
      ensures Strayed(nestedFellOff) && (tidy ==> !nestedFellOff)
      ensures CallFree(f.code.instructions) ==> !nestedFellOff && (r.Ok? ==> tidy)
    {
      PushFrame(f);
      f.InitInstructionSet(f.code.instructions);
      LayoutCallFree(f.code.instructions);
      label Started:
      r, tidy, returned, retStack, nestedFellOff := RunLoop(f, fuel);
      if r.Ok? && tidy {
        forall g: Frame | g in old(repr) && g != f ensures unchanged(g) {
          assert g in old@Started(repr);
        }
      }
    }

    /** The end of run_frame: `frame_stack.pop()` gives the result, then pop_frame drops the entry below it. */
    method Unwind() returns (r: Result<Value>)
      modifies this`frameStack, this`frame
      ensures var s := old(frameStack);
        (|s| < 2 ==> r.Err? && frameStack == [] && frame == old(frame)) &&
        (|s| >= 2 ==> r == Ok(s[|s| - 1]) && frameStack == s[..|s| - 2] && Linked())
    {
      var top := PopEntry();
      if top.Err? {
        return top;
      }
      var popped := PopFrame();
      if popped.Err? {
        return Err(popped.error);
      }
      return top;
    }

    /**
     * The loop of run_frame, on the frame `f` it has just pushed.  `tidy`
     * says every step came back clean; then the loop ended either at
     * RETURN_VALUE (`returned`, with the returned value on top of the frame
     * stack and `retStack` the operand stack before it) or with `ip` past
     * the end.  `nestedFellOff` says a nested run fell off its end during
     * the loop, exactly when `strays` grew; a pass that was not clean had one.
     */
    method RunLoop(f: Frame, fuel: nat)
      returns (r: Result<()>, ghost tidy: bool, ghost returned: bool, ghost retStack: seq<Value>, ghost nestedFellOff: bool)
      requires Valid() && frame == VFrame(f) && f in repr
      modifies this, repr
      decreases fuel, 0
      ensures Heap() && Grown()
      ensures r.Ok? && !returned ==> FramesOk()
      ensures r.Ok? && returned ==> (|frameStack| >= 1 &&
        forall i | 0 <= i < |frameStack| - 1 :: frameStack[i].VFrame? && frameStack[i].frame in repr)
      ensures fuel == 0 ==> r.Err? || (tidy && !returned)
      ensures r.Ok? && tidy && !returned ==>
        frameStack == old(frameStack) && frame == old(frame) && Undisturbed(f) &&
        f.instructionSet == old(f.instructionSet) && f.ip >= |f.instructionSet|
      ensures r.Ok? && tidy && returned ==>
        retStack != [] && frameStack == old(frameStack) + [retStack[|retStack| - 1]] && frame == old(frame) &&
        f.stack == retStack[..|retStack| - 1] && Undisturbed(f) && f.instructionSet == old(f.instructionSet)
      ensures r.Ok? ==> tidy || nestedFellOff
      ensures Strayed(nestedFellOff) && (tidy ==> !nestedFellOff)
      ensures CallFreeSlots(old(f.instructionSet)) ==> !nestedFellOff
      ensures r.Ok? && CallFreeSlots(old(f.instructionSet)) ==> tidy
    {
      tidy, returned, retStack, nestedFellOff := true, false, [], false;
      var budget: nat := fuel;
      while true
        invariant Heap() && Grown() && FramesOk() && budget <= fuel
        invariant tidy ==> frameStack == old(frameStack) && frame == VFrame(f) && Undisturbed(f)
        invariant tidy ==> f.instructionSet == old(f.instructionSet)
        invariant budget == fuel ==> tidy
        invariant tidy || nestedFellOff
        invariant Strayed(nestedFellOff) && (tidy ==> !nestedFellOff)
        invariant CallFreeSlots(old(f.instructionSet)) ==> tidy && !nestedFellOff
        decreases budget
      {
        if !frame.VFrame? {
          return Err(AttributeError("ip")), false, false, [], nestedFellOff;
        }
        var cur := frame.frame;
        if cur.ip >= |cur.instructionSet| {
          return Ok(()), tidy, false, [], nestedFellOff;
        }
        if budget == 0 {
          return Err(FuelExhausted), false, false, [], nestedFellOff;
        }
        budget := budget - 1;
        ghost var before := cur.stack;
        label Ticked:
        var flow, c, n := Tick(cur, budget);
        if tidy && c {
          forall g: Frame | g in old(repr) && g != f ensures unchanged(g) {
            assert g in old@Ticked(repr);
          }
        }
        tidy := tidy && c;
        nestedFellOff := nestedFellOff || n;
        if flow.Err? {
          return Err(flow.error), false, false, [], nestedFellOff;
        }
        if flow.value == Returned {
          return Ok(()), tidy, true, before, nestedFellOff;
        }
      }
    }

    /**
     * run_code: run `code` in a fresh top-level frame.  `fellOff` says a
     * run within it, this one or a nested one, fell off the end of its code.
     */
    method RunCode(code: Code, fuel: nat) returns (r: Result<()>, ghost clean: bool, ghost fellOff: bool)
      requires Valid()
      modifies this, repr
      ensures Heap() && Grown()
      ensures r.Ok? ==> FramesOk()
      ensures clean ==> r.Ok? && frameStack == old(frameStack) && frame == old(frame)
      ensures Strayed(fellOff) && (clean ==> !fellOff)
      ensures r.Ok? && old(frameStack) == [] ==> clean || fellOff
      ensures r.Ok? && old(frameStack) == [] && CallFree(code.instructions) ==> clean
    {
      clean, fellOff := false, false;
      var nf :- MakeFrame(code, map[]);
      var res: Result<Value>;
      ghost var own, retStack, deeper;
      res, clean, own, retStack, deeper := RunFrame(nf, fuel);
      fellOff := own || deeper;
      r := if res.Ok? then Ok(()) else Err(res.error);
    }
  }
}
