# A verified model of vm.py, a CPython 3.6 bytecode interpreter

vm.py runs the bytecode of a compiled Python 3.6 code object on a stack
machine. A `VirtualMachine` keeps a `frame_stack` of `Frame`s and one
current `frame`. Each frame holds the following:

- its code;
- an instruction pointer `ip`;
- an operand `stack` and a `block_stack` of loop blocks;
- `locals` and `globals` dicts;
- `builtins`;
- a table of closure `cells`.

`run_frame` lays the instructions out in a sparse array indexed by byte
offset. It then calls one handler method per opcode until an instruction
returns `'return'` or `ip` runs past the end.

The model has four modules.

- `PyList` (pylist.dfy) states Python's list semantics on `seq`:
  - slice bounds, including negative and out-of-range ones;
  - `s[-k:]` / `del s[-k:]`;
  - negative indexing;
  - `reversed`, `str.startswith` and `str.replace`.
- `Objects` (objects.dfy) holds the runtime values, instructions and
  opcodes, and the classes `Cell`, `Namespace` (a dict that is shared by
  reference) and `Frame`. It also gives the instruction layout
  `init_instruction_set` builds, and proves where each instruction lands.
- `Effects` (effects.dfy) holds pure specifications of what handlers take
  from the stack and what they leave:
  - MAKE_FUNCTION's flag decoding;
  - UNPACK_EX's three-way split;
  - the dicts BUILD_MAP, BUILD_CONST_KEY_MAP, BUILD_MAP_UNPACK and
    CALL_FUNCTION_KW build;
  - LOAD_NAME / LOAD_GLOBAL resolution;
  - the `implicit` argument renaming in `Function.__call__`.
- `Machine` (machine.dfy) holds the `VirtualMachine` class. It has
  `frame_stack` and `frame` as fields, and one method per handler. Each
  method's postcondition gives the exact operand-stack, block-stack,
  namespace or cell state after the handler, and its error cases. The
  class also has the frame-stack operations, `make_frame`, the dispatch
  step, `run_frame` with its loop, and the three call opcodes.

Frames, cells and namespaces are heap objects. A ghost set `repr` holds
every one the machine has made, and `Heap()` says that set is closed
under "a frame's namespaces and cells".

Runtime values form one datatype `Value`. It covers None, bool, int, str,
list, tuple, dict, code, the functions MAKE_FUNCTION builds, cells,
frames, and opaque host objects.

Host operations are the fields of a `Host` value of functions that the
machine holds as a constant. They cover:

- unary and binary operators, and comparisons;
- truthiness;
- `getattr`/`setattr`/`delattr` and item assignment/deletion;
- `iter`/`next`;
- listing what iterating a value gives (`[*x]`, `list(x)`, `*args`);
- listing `reversed(x)`, which fails for a value that is not a reversible
  sequence even when it can be iterated (a generator, `map`, a set);
- building sets and slices, and `str.join`;
- calling a non-interpreted callable;
- `inspect.getcallargs`.

An exception the source would raise is an `Err` value that propagates to
the caller of `run_code`. The only handler in vm.py is FOR_ITER's
`except StopIteration`, which the host's `next` reports as an exhausted
iterator rather than as an error. The state after an
error is given only as far as the contracts say.

The machine also keeps a ghost log `strays`: the frames whose run fell
off the end of their code, appended by `run_frame` at the moment it sees
that happen. In the source such a run pops its caller's frame-stack entry
too. The methods that may run interpreted code return two ghost flags.
`clean` says the machine came back as it was, apart from the instruction's
own effect: the same frame stack and current frame, and no other frame
touched. `nestedFellOff` says that some run nested inside the call fell off
the end of its code, and every such method proves that it holds exactly
when `strays` grew during the call (`Strayed`). A clean call adds nothing
to the log, and a successful call that adds nothing to the log is clean.
So a successful call is clean exactly when no run inside it fell off its
end. For code with no call opcode no run is nested, so it is clean.

The model keeps these quirks of the source:

- LOAD_NAME pushes nothing for an unbound name.
- STORE_SUBSCR does not pop.
- STORE_ATTR and DELETE_SUBSCR leave their operands on the stack.
- `stack[-0:]` is the whole stack in BUILD_MAP_UNPACK and BUILD_STRING.
- UNPACK_EX with no leading targets pushes the whole reversed list again.
- Falling off the end of `run_frame` returns the frame itself and pops
  the caller's frame entry. For a top-level frame it raises IndexError.

## Model

| member | source | states |
|---|---|---|
| `PyList.Bound` | vm.py:470-471 | the clamped index a slice bound `i` stands for on a list of length n: `i` itself inside the list, `n + i` for a negative `i` within reach, 0 or n beyond either end |
| `PyList.From` | vm.py:470 | `s[lo:]` is the suffix of `s` from the clamped bound |
| `PyList.Upto` | vm.py:471 | `s[:hi]`, which is also what `del s[hi:]` leaves, is the prefix up to the clamped bound |
| `PyList.At` | vm.py:569 | `s[i]` exists exactly for `-len <= i < len`, and a negative `i` counts from the end |
| `PyList.ReverseReverse` | vm.py:538 | reversing a list twice gives it back |
| `PyList.NegativeSuffix` | vm.py:470-471 | for `1 <= k <= len(s)`, `s[-k:]` is the last k items and `del s[-k:]` leaves the rest |
| `PyList.NegativeZeroSuffix` | vm.py:524-525 | `s[-0:]` is the whole list and `del s[-0:]` empties it |
| `PyList.UptoFrom` | vm.py:480-481 | for any bound, the part `del s[i:]` keeps followed by `s[i:]` is `s` again |
| `PyList.ReplaceAllHead` | vm.py:96-97 | a key starting with the pattern starts with the replacement after `str.replace` |
| `Objects.Canonical` | vm.py:174-175 | INPLACE_op dispatches as BINARY_op; every other opcode is left alone, and no INPLACE remains |
| `Objects.Nones` | vm.py:57 | `[None] * k` has `max(k, 0)` slots, all None |
| `Objects.LayoutPlacesByOffset` | vm.py:53-57 | for strictly increasing offsets the array is one longer than the last offset, each instruction sits at the index equal to its offset, and every other slot is None |
| `Objects.EmptySlotIsGap` | vm.py:168-172 | a None slot the loop skips is never the offset of an instruction |
| `Objects.Cell.constructor` | vm.py:111-112 | a new cell holds the given value |
| `Objects.Cell.Set` | vm.py:117-118 | `set` replaces the cell's value |
| `Objects.CreateCells` | vm.py:25-34 | one fresh, distinct cell per cell variable, seeded with the local binding or None, and the same cell objects added to the calling frame's table |
| `Objects.Frame.constructor` | vm.py:12-34 | the new frame's code, namespaces, caller and builtins (the caller's, or the root builtins), empty stacks, `ip` 0, and the cell-variable cells published to the caller |
| `Objects.Frame.BindFreevars` | vm.py:36-38 | with a caller, each free variable's entry is the caller's own cell object, a missing name fails (KeyError), and other entries are kept; without a caller, nothing changes |
| `Objects.Frame.InitInstructionSet` | vm.py:53-57 | the instruction array is the offset layout of the code's instructions |
| `Objects.Frame.Pop` | vm.py:188 | `stack.pop()` returns the top and removes it; on an empty stack it fails and the stack stays |
| `Effects.FlagBits` | vm.py:598-622 | for a flag below 16 the subtractive tests read the bits 8, 4, 2 and 1, so 2 items plus one per set bit are popped |
| `Effects.LargeFlagPopsAll` | vm.py:605-622 | a flag of 15 or more passes all four tests and pops six items |
| `Effects.AllPartsOrder` | vm.py:601-630 | with all parts, the pop order is name, code, closure, annotations, kw-defaults, pos-defaults |
| `Effects.NoPartsDefaults` | vm.py:601-630 | with flag 0 only name and code are popped, and the parts default to `()`, `{}`, `{}`, `()` |
| `Effects.FunctionInit` | vm.py:66-86 | Function.__init__ accepts exactly a code object with an iterable closure of one item per free variable and a string name, and then keeps the parts as given; a non-code `code` is the AttributeError of `code.co_consts` |
| `Effects.ClosureRequired` | vm.py:604-607 | without the closure bit the closure is `()`, so a code object with free variables is rejected |
| `Effects.UnpackExSplits` | vm.py:536-547 | with at least one leading target, UNPACK_EX pushes `reverse(q[len-after:])`, the list `q[before:len-after]`, then `reverse(q[:before])` |
| `Effects.UnpackExNoLeading` | vm.py:547 | with no leading target, the last part is the whole reversed list again |
| `Effects.UnpackExArg` | vm.py:539-540 | the operand `before + 256 * after` of any `before` below 256 decodes back to that `before` and `after`, so UNPACK_EX pushes `Unpacked(q, before, after)` |
| `Effects.UnpackSequenceTop` | vm.py:531-534 | after UNPACK_SEQUENCE the first item of the sequence is on top |
| `Effects.TakenKept` | vm.py:465-472 | BUILD_LIST's split of the stack puts it back together, is exactly the top n for `1 <= n <= len`, and takes everything when n exceeds the depth |
| `Effects.PairsMapDeepestWins` | vm.py:505-512 | in BUILD_MAP's dict a key that no deeper pair repeats maps to its own value; the deepest pair, stored last, wins |
| `Effects.PairsMapKeys` | vm.py:505-512 | BUILD_MAP's dict has exactly the keys of the popped pairs |
| `Effects.ZipMapLast` | vm.py:651-653 | in a dict built from zip, a key that no later pair repeats maps to its own value |
| `Effects.ZipMapKeys` | vm.py:651-653 | a dict built from zip has exactly the keys given |
| `Effects.MergeMapsLast` | vm.py:526-528 | after the `update` loop a key has the value from the last map that has it |
| `Effects.ConstKeyMapFirstWins` | vm.py:514-520 | BUILD_CONST_KEY_MAP walks the keys reversed, so of repeated keys the first one's value survives |
| `Effects.MergeAllMerges` | vm.py:522-529 | when every popped item is a mapping, BUILD_MAP_UNPACK's result is their merge in order |
| `Effects.MergeAllErrSticky` | vm.py:527-528 | once one item fails to give a mapping, the whole merge fails |
| `Effects.SpreadConcatenates` | vm.py:482-483 | when every iterable gives its elements, BUILD_LIST_UNPACK's list is their concatenation |
| `Effects.SpreadErrSticky` | vm.py:482-483 | once one iterable fails, the whole unpack fails |
| `Effects.ResolveNameFallsBackToGlobal` | vm.py:225-243 | LOAD_NAME agrees with LOAD_GLOBAL unless a local shadows, takes the local when there is one, and finds nothing exactly when no scope has the name |
| `Effects.StoreThenResolve` | vm.py:187-228 | after STORE_NAME, LOAD_NAME of that name finds the stored value |
| `Effects.RenamedNotMagic` | vm.py:96-97 | a renamed `implicit...` key no longer starts with `implicit` and differs from the original |
| `Effects.RenameImplicit` | vm.py:94-99 | every `implicit...` key is replaced by its renamed key and value; every other key keeps its value unless a renamed key lands on it; nothing else appears |
| `Machine.VirtualMachine.constructor` | vm.py:122-124 | an empty frame stack, no current frame, and nothing allocated |
| `Machine.VirtualMachine.PushFrame` | vm.py:126-128 | the frame is appended and becomes current |
| `Machine.VirtualMachine.PopFrame` | vm.py:130-135 | the last entry is removed and `frame` becomes the new last entry or None; an empty stack fails unchanged |
| `Machine.VirtualMachine.PopEntry` | vm.py:183 | `frame_stack.pop()` returns and removes the last entry; an empty stack fails |
| `Machine.VirtualMachine.MakeFrame` | vm.py:143-161 | with no frame, a new top-level frame whose locals and globals are one `__main__` dict and whose cells are fresh and seeded from it; with a caller, the caller's globals updated with its locals and shared, `locals = args`, the new cell variables published into the caller's table with every other entry of that table kept, and cells aliased from the caller; the frame stack is untouched |
| `Machine.VirtualMachine.MakeTopFrame` | vm.py:144-155 | the top-level frame: fresh namespace with the four `__main__` entries used as locals and globals, no caller, root builtins |
| `Machine.VirtualMachine.NewCalleeFrame` | vm.py:157-160 | the merge of the caller's locals into its globals, then a frame whose cell variables are fresh cells seeded from `args` and added to the caller's table, nothing else of that table changing |
| `Machine.VirtualMachine.MakeCalleeFrame` | vm.py:157-161 | the caller's globals gain its locals; the caller's cell table gains exactly one fresh cell per new cell variable, seeded from `args`, and keeps every other entry; the new frame shares those globals and the caller's cells, and fails exactly when a free variable is in neither the caller's cells nor the new cell variables |
| `Machine.VirtualMachine.Adopt` | vm.py:36-38 | binding the free variables succeeds exactly when the caller has them all, and then they are the caller's cells |
| `Machine.VirtualMachine.StoreItem` | vm.py:580-581 | `d[k] = v` on a dict updates that key; on any other container it succeeds exactly when the host's item assignment does |
| `Machine.VirtualMachine.StoreLocal` | vm.py:187-191 | STORE_NAME / STORE_FAST pop TOS into locals only |
| `Machine.VirtualMachine.StoreGlobal` | vm.py:193-194 | STORE_GLOBAL pops TOS into globals |
| `Machine.VirtualMachine.StoreSubscr` | vm.py:196-198 | STORE_SUBSCR reads the top three but pops none, and fails on fewer than three or when the host assignment fails |
| `Machine.VirtualMachine.StoreAttr` | vm.py:200-206 | STORE_ATTR sets `TOS.name = TOS1` and leaves the stack as it was |
| `Machine.VirtualMachine.StoreDeref` | vm.py:208-211 | STORE_DEREF pops into the named cell object and no other cell changes; KeyError for an unknown name |
| `Machine.VirtualMachine.StoreDerefLoadDeref` | vm.py:208-256 | a value stored through a cell in one frame is what LOAD_DEREF pushes in another frame bound to the same cell |
| `Machine.VirtualMachine.SetupAnnotations` | vm.py:213-215 | `__annotations__` is added as `{}` only when it is absent |
| `Machine.VirtualMachine.StoreAnnotation` | vm.py:217-220 | pops TOS into `locals['__annotations__'][name]`, failing when the dict or TOS is missing |
| `Machine.VirtualMachine.LoadConst` | vm.py:222-223 | pushes the constant |
| `Machine.VirtualMachine.LoadName` | vm.py:225-232 | pushes the first binding among locals, globals and builtins, and nothing when none has it |
| `Machine.VirtualMachine.LoadFast` | vm.py:234-236 | pushes the local, and fails with the stack unchanged when it is unbound |
| `Machine.VirtualMachine.LoadGlobal` | vm.py:238-243 | pushes from globals, else builtins, else fails |
| `Machine.VirtualMachine.LoadAttr` | vm.py:245-248 | replaces TOS by `getattr(TOS, name)` |
| `Machine.VirtualMachine.LoadClosure` | vm.py:250-252 | pushes the cell object itself |
| `Machine.VirtualMachine.LoadDeref` | vm.py:254-256 | pushes the current value of the named cell |
| `Machine.VirtualMachine.LoadClassDeref` | vm.py:258-263 | pushes the local if bound, else the cell's value |
| `Machine.VirtualMachine.DeleteAttr` | vm.py:269-273 | deletes `TOS.name` and leaves TOS in place |
| `Machine.VirtualMachine.DeleteFast` | vm.py:275-277 | removes the local, KeyError when unbound |
| `Machine.VirtualMachine.DeleteGlobal` | vm.py:279-281 | removes the global, KeyError when unbound |
| `Machine.VirtualMachine.DeleteName` | vm.py:283-288 | removes from locals when bound there, else from globals, else fails |
| `Machine.VirtualMachine.DeleteSubscr` | vm.py:290-296 | deletes `TOS1[TOS]` and leaves both on the stack |
| `Machine.VirtualMachine.DeleteDeref` | vm.py:298-300 | removes the name from the cell table |
| `Machine.VirtualMachine.Unary` | vm.py:302-316 | replaces TOS by the unary result; `not` uses truthiness |
| `Machine.VirtualMachine.Binary` | vm.py:318-386 | replaces TOS1, TOS by `TOS1 op TOS` |
| `Machine.VirtualMachine.DupTop` | vm.py:388-391 | `s+[a]` becomes `s+[a,a]` |
| `Machine.VirtualMachine.DupTopTwo` | vm.py:393-399 | `s+[b,a]` becomes `s+[b,a,b,a]` |
| `Machine.VirtualMachine.PopTop` | vm.py:401-402 | removes TOS |
| `Machine.VirtualMachine.RotTwo` | vm.py:404-408 | `s+[b,a]` becomes `s+[a,b]` |
| `Machine.VirtualMachine.RotThree` | vm.py:410-416 | `s+[c,b,a]` becomes `s+[a,c,b]` |
| `Machine.VirtualMachine.CompareOp` | vm.py:418-422 | replaces TOS1, TOS by the comparison, and fails before popping for an operator name outside the table |
| `Machine.VirtualMachine.GetIter` | vm.py:461-463 | replaces TOS by `iter(TOS)` |
| `Machine.VirtualMachine.PopJumpIf` | vm.py:424-432 | always pops, and sets `ip = argval - 1` exactly when TOS's truth matches |
| `Machine.VirtualMachine.JumpIfOrPop` | vm.py:434-444 | keeps TOS and jumps when its truth matches, else pops and does not jump |
| `Machine.VirtualMachine.JumpTo` | vm.py:446-450 | `ip = argval - 1` |
| `Machine.VirtualMachine.ForIter` | vm.py:452-459 | pushes the advanced iterator and the next item, or at exhaustion pops the iterator and jumps |
| `Machine.VirtualMachine.SetupLoop` | vm.py:583-586 | pushes the block `{begin: offset, end: argval}` |
| `Machine.VirtualMachine.BreakLoop` | vm.py:588-590 | pops the innermost block and sets `ip = end - 1`; fails on an empty block stack |
| `Machine.VirtualMachine.PopBlock` | vm.py:595-596 | pops the innermost block |
| `Machine.VirtualMachine.BuildList` | vm.py:465-472 | the top n items are replaced by a list of them; n = 0 pushes `[]` |
| `Machine.VirtualMachine.BuildTuple` | vm.py:486-488 | the same as a tuple |
| `Machine.VirtualMachine.BuildSet` | vm.py:497-499 | the same, made into a set by the host |
| `Machine.VirtualMachine.BuildListUnpack` | vm.py:474-484 | the top n iterables are replaced by the list of all their elements in order |
| `Machine.VirtualMachine.BuildTupleUnpack` | vm.py:490-495 | the same as a tuple, also for the WITH_CALL variant |
| `Machine.VirtualMachine.BuildSetUnpack` | vm.py:501-503 | the same, made into a set |
| `Machine.VirtualMachine.BuildMap` | vm.py:505-512 | n key/value pairs are replaced by their dict, and there must be 2n items |
| `Machine.VirtualMachine.BuildConstKeyMap` | vm.py:514-520 | the key tuple and the values below it are replaced by the dict pairing reversed keys with reversed values |
| `Machine.VirtualMachine.PopZip` | vm.py:514-520 | popping one value per key fails exactly when the stack is too short, and pairs the i-th key with the i-th value popped, later pairs winning |
| `Machine.VirtualMachine.BuildMapUnpack` | vm.py:522-529 | `stack[-n:]` is replaced by the merge of its mappings, the whole stack when n is 0 |
| `Machine.VirtualMachine.MergeMappings` | vm.py:526-528 | the `update` loop succeeds exactly when every item gives a mapping, and then its result is their merge in order |
| `Machine.VirtualMachine.UnpackSequence` | vm.py:531-534 | TOS is replaced by the items of `reversed(TOS)`, whatever the count operand, and it fails exactly when the stack is empty or TOS cannot be reversed; where the host's reversal agrees with its iteration on TOS, the push is TOS's elements reversed |
| `Machine.VirtualMachine.UnpackEx` | vm.py:536-547 | TOS is replaced by the three-part split of its reversed elements |
| `Machine.VirtualMachine.BuildSlice` | vm.py:549-558 | for 2 or 3 the top items become a slice, and any other count does nothing |
| `Machine.VirtualMachine.BuildString` | vm.py:560-564 | `stack[-n:]` is replaced by its join, the whole stack when n is 0 |
| `Machine.VirtualMachine.ListAppend` | vm.py:566-569 | pops TOS and appends it to the list `count` deep in what remains |
| `Machine.VirtualMachine.SetAdd` | vm.py:571-574 | pops TOS and adds it to the set `count` deep |
| `Machine.VirtualMachine.MapAdd` | vm.py:576-581 | pops key and value and stores them into the dict `count` deep |
| `Machine.VirtualMachine.MakeFunction` | vm.py:598-631 | succeeds exactly when Arity(flag) items are there and Function.__init__ accepts the function built from them, and then replaces them by it |
| `Machine.VirtualMachine.PopFunctionParts` | vm.py:600-622 | pops exactly Arity(flag) items when there are that many, and gathers them as BuiltFunction describes |
| `Machine.VirtualMachine.PopIf` | vm.py:604-607 | one optional MAKE_FUNCTION part: the next item below the ones already popped, or the default without popping |
| `Machine.VirtualMachine.RaiseVarargs` | vm.py:708-723 | always raises: TOS for 1, `TOS(TOS1)` for 2 and 3, a re-raise otherwise |
| `Machine.VirtualMachine.ReturnValue` | vm.py:676-679 | pops TOS onto the frame stack and reports `'return'` |
| `Machine.VirtualMachine.FunctionCall` | vm.py:92-103 | a failed binding fails before any frame is made (a non-code `code` fails there too, though MAKE_FUNCTION already rejects one); a clean run leaves the frame stack, the caller and every other frame as they were; a successful call is clean exactly when the log of fallen-off runs did not grow, `nestedFellOff` saying it grew, which is when the callee's run or a run nested in it fell off its end; a callee whose code has no call opcode comes back clean unless it fell off its end and returned its fresh frame |
| `Machine.VirtualMachine.Enter` | vm.py:101 | making the callee frame leaves the caller's operand and block stacks and `ip` alone |
| `Machine.VirtualMachine.CallValue` | vm.py:641 | a callee that is not an interpreted function is the host's call, and comes back clean with nothing logged; a successful call is clean exactly when no nested run fell off its end |
| `Machine.VirtualMachine.Invoke` | vm.py:641-642 | a host callee's result is pushed on the calling frame; a successful call is clean exactly when no nested run fell off its end |
| `Machine.VirtualMachine.PushResult` | vm.py:642 | pushes onto the current frame, failing when there is none |
| `Machine.VirtualMachine.CallFunction` | vm.py:633-643 | fails when fewer than n + 1 items are there; for a host callee, calls it with the top n arguments in their original order and replaces them and the callee by the result; a clean call leaves everything below the callee's slot alone, and a successful call is clean exactly when no nested run fell off its end |
| `Machine.VirtualMachine.PopArgs` | vm.py:636-637 | popping m items one by one and reversing them gives the top m in stack order |
| `Machine.VirtualMachine.Keywords` | vm.py:646-653 | the keyword names are usable exactly when all are strings |
| `Machine.VirtualMachine.KwPops` | vm.py:644-662 | what is left below the callee is a proper prefix of the stack |
| `Machine.VirtualMachine.KwSplit` | vm.py:648-662 | the same, once the names are popped |
| `Machine.VirtualMachine.KwSplitNoNames` | vm.py:648-650 | with no keyword names, `stack[-0:]` takes the whole stack and the call fails |
| `Machine.VirtualMachine.KwSplitShape` | vm.py:644-662 | with k names and enough items: the last k are the keyword values, the `total - k` below are the positional arguments, then the callee |
| `Machine.VirtualMachine.CallFunctionKw` | vm.py:644-664 | fails when the split fails; for a host callee, calls it with those arguments and pushes the result on the rest of the stack; a successful call is clean exactly when no nested run fell off its end |
| `Machine.VirtualMachine.ExPops` | vm.py:666-672 | an IndexError when fewer than the callee, the positional iterable and (with the flag) the kwargs mapping are there, before any conversion; otherwise what is left below the callee is a proper prefix of the stack |
| `Machine.VirtualMachine.ExPopsShape` | vm.py:666-672 | the kwargs mapping only when the flag is set, then the positional iterable, then the callee |
| `Machine.VirtualMachine.CallFunctionEx` | vm.py:666-674 | fails when the split fails; for a host callee, calls it and pushes the result on the rest of the stack; a successful call is clean exactly when no nested run fell off its end |
| `Machine.VirtualMachine.DispatchScope` | vm.py:187-300 | the name, attribute and cell handlers keep the heap closed and never add cells |
| `Machine.VirtualMachine.DispatchBranch` | vm.py:424-459 | a conditional jump or FOR_ITER that succeeds sets `ip` to `argval - 1` when it jumps (TOS's truth matches, or the iterator is exhausted) and leaves it otherwise |
| `Machine.VirtualMachine.DispatchControl` | vm.py:424-596 | the jump and block handlers: only they may move `ip`, absolute jumps land on `argval - 1`, branches as DispatchBranch, and the loop-block effects hold |
| `Machine.VirtualMachine.DispatchStack` | vm.py:388-489 | an unknown opcode is an AttributeError from the handler lookup (vm.py:176, 702-706), EXTENDED_ARG and POP_EXCEPT do nothing, and DUP_TOP, DUP_TOP_TWO, POP_TOP, ROT_TWO, ROT_THREE, BUILD_LIST and BUILD_TUPLE leave exactly the stack StackSurgery describes |
| `Machine.VirtualMachine.DispatchLocal` | vm.py:176-178 | every handler that does not call keeps the heap closed, with the same jump, branch, block and stack-surgery facts |
| `Machine.VirtualMachine.DispatchCall` | vm.py:633-675 | a call opcode that came back clean leaves the frame stack and control state alone; one that fails before calling or whose callee is not a Function always comes back clean, and a successful one is clean exactly when no nested run fell off its end |
| `Machine.VirtualMachine.DispatchOther` | vm.py:176-178 | every handler other than RETURN_VALUE keeps the frame stack unless it calls a Function, with the jump, branch, block and stack-surgery facts |
| `Machine.VirtualMachine.Dispatch` | vm.py:176-180 | only RETURN_VALUE reports `'return'`, and it moves TOS onto the frame stack; an instruction that calls no Function comes back clean, and any successful one is clean exactly when no nested run fell off its end; the other facts as above |
| `Machine.VirtualMachine.Step` | vm.py:168-181 | one pass of the loop: a missing slot fails, a None slot only advances `ip`, a jump lands exactly on `argval`, a branch on `argval` when taken and on the next slot when not, BREAK_LOOP on the block's end, any other instruction advances by one; an instruction that calls no Function comes back clean with the stack-surgery facts, and any successful pass is clean exactly when no nested run fell off its end |
| `Machine.VirtualMachine.Tick` | vm.py:168-181 | one pass of the loop for the frame being run; a successful pass is clean exactly when no nested run fell off its end, and on an instruction array without call opcodes it comes back clean |
| `Machine.VirtualMachine.LayoutCallFree` | vm.py:53-57 | laying out instructions none of which is a call gives an instruction array none of whose slots is a call |
| `Machine.VirtualMachine.RunLoop` | vm.py:168-182 | whenever every pass came back clean, the loop ends at RETURN_VALUE with the value on top of the frame stack, or with `ip` past the end; a successful loop is tidy exactly when no nested run fell off its end during it, and on an instruction array without call opcodes it is tidy |
| `Machine.VirtualMachine.RunFrame` | vm.py:163-185 | a clean run ended in RETURN_VALUE, returns TOS and restores the frame stack and frame; falling off the end logs the frame, returns the frame itself and also pops the caller's entry, or fails at top level; a successful run is clean exactly when neither it nor a run nested in it fell off its end, and code with no call opcode has no nested run |
| `Machine.VirtualMachine.Execute` | vm.py:163-182 | `run_frame` up to the end of its loop: the frame is pushed, its instructions laid out, and the loop's outcomes hold for that frame on top of the frame stack as it was |
| `Machine.VirtualMachine.Unwind` | vm.py:183-185 | the result is the last entry of the frame stack, and it and the entry below it are removed; fewer than two entries fail |
| `Machine.VirtualMachine.RunCode` | vm.py:137-141 | a clean run of a top-level frame leaves the frame stack as it was; a successful top-level run is clean exactly when no run fell off its end during it, and with no call opcode it is clean |

## Left out

- Compiling and decoding: `run_code`'s `compile` of a string and `dis.get_instructions`.
  Code units arrive as decoded `Code` values with resolved operands.
- `Frame.dump` (printing) and `Frame.operators`. The operator table is the set
  of names COMPARE_OP accepts, and the operators are host functions.
- `Function.__init__`'s `types.FunctionType` object, `make_cell` and the
  `__doc__` lookup. These are host-runtime internals; the model's function
  value keeps the six parts MAKE_FUNCTION pops.
- `inspect.getcallargs`, which is the host's `bind`. Only the `implicit` renaming
  that follows it is modelled.
- LOAD_BUILD_CLASS, the `__build_class__` special case of CALL_FUNCTION,
  IMPORT_NAME, IMPORT_FROM and IMPORT_STAR. These are host-runtime and
  module-system internals, and their handlers give an `Unmodelled` error.
- Host value semantics: operators, truthiness, `getattr`, iteration, sets,
  slices, `str.join`, calls of built-in callables. All of them are
  uninterpreted `Host` functions.
- In-place mutation of host containers. Lists and dicts on the stack are
  values, so `second[first] = third` in STORE_SUBSCR and `del` in
  DELETE_SUBSCR act only through the host, and an alias elsewhere does not
  see the change. LIST_APPEND, SET_ADD and MAP_ADD rewrite the slot that
  holds the container.
- Dict iteration order and hashing. Dicts are Dafny maps.
- Exceptions as control flow: `raise` and StopIteration are error values or
  Option results, and RAISE_VARARGS's `with_traceback` is the same as the
  two-argument form.
- An operand of the wrong kind is a TypeError, raised before the handler
  pops anything. The source behaves differently, though the decoder only
  ever supplies ints and strings there, so the difference never arises
  for decoded code:
  - MAKE_FUNCTION, UNPACK_EX, LIST_APPEND, SET_ADD and MAP_ADD pop first
    and use the operand afterwards, so on a short stack the source raises
    IndexError where the model raises TypeError.
  - BUILD_SLICE with a non-int count fails both of its tests and does
    nothing.
  - The name opcodes (STORE_NAME, LOAD_NAME, STORE_FAST and the rest)
    accept any hashable argval, while the model requires a string name.
- Host operations never run interpreted code. A host `map`, `filter` or
  `sorted(key=...)` handed a Function would run Function.__call__ and so
  merge locals into globals, publish cell variables and push frames. The
  model's host calls have no effect on the machine, which is what makes a
  host call (`CallValue`) come back clean and leave the machine's state as
  it was.
- The `__defaults__`, `__kwdefaults__` and `__annotations__` assignments of
  Function.__init__ (vm.py:87-89), which the host's FunctionType checks for
  a tuple, a dict and a dict (or None). The model accepts any value there.
  The `__name__` assignment on vm.py:86 is modelled: `FunctionInit` rejects
  a name that is not a string with a TypeError.
- Unbounded execution, which is bounded by fuel. A run takes at most `fuel`
  loop passes per frame, and then fails with FuelExhausted.
- `Machine.VirtualMachine.FunctionCall`: for an interpreted callee, does not
  state the returned value. It is the value RETURN_VALUE left in the callee's
  nested run, which `RunFrame` describes.
- `Machine.VirtualMachine.CallFunction`: for an interpreted callee, states only
  that a clean call leaves one result on the stack below the callee's slot.
- `Machine.VirtualMachine.CallFunctionKw`: the same as CallFunction.
- `Machine.VirtualMachine.CallFunctionEx`: the same as CallFunction.
- `Machine.VirtualMachine.RunLoop`: after a nested run fell off its end,
  the loop's final frame stack, current frame and operand stacks are not
  stated. In the source, such a run pops its caller's frame-stack entry as
  well as its own, so the rest of the caller's loop runs on whatever frame
  is then current.
- `Machine.VirtualMachine.RunLoop`: the loop is proved tidy unconditionally
  only for code without call opcodes. For other code it is proved tidy when
  no nested run fell off its end, that is when `strays` did not grow. It is
  not proved that code whose calls reach only host callables, such as a
  frame that only calls `print(x)`, never logs a fall-off. That would need
  an invariant that no Function is reachable from the frames, their
  namespaces and cells, the constants, or the host's results, kept by every
  handler, and the model does not carry it.
- `Machine.VirtualMachine.RunFrame`: the same gaps as RunLoop. The value
  returned and the frame-stack restoration are stated for a clean run. A
  successful run that is neither clean nor fell off its own end logged a
  nested fall-off.
- `Machine.VirtualMachine.RunCode`: only the frame-stack restoration of a clean
  run is stated. The namespaces it leaves behind are not. It is proved clean
  for code without call opcodes. Otherwise it is proved clean only when no
  run fell off its end, for the reason given under RunLoop.
- `Machine.VirtualMachine.FunctionCall`: a call is proved clean
  unconditionally only for a call-free callee that returns. Otherwise it is
  clean exactly when no run in it fell off its end, for the reason given
  under RunLoop.
- `Machine.VirtualMachine.UnpackSequence`: that `reversed(x)` lists the
  items iterating `x` gives, in reverse order, is a fact about the host
  runtime. The model's `Host` gives the two as separate functions and
  states the link per value, as the hypothesis `ReversesElements`.
- `Machine.VirtualMachine.DispatchScope`: states only the heap invariant. Each
  handler's own effect is in its row.
