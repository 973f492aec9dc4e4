# A verified model of the `run` bytecode engine

`run` in `vm.c` is a single-frame, stack-based bytecode interpreter. It keeps an
instruction pointer into a byte stream, an operand stack of ten object
references, ten local slots, and one `self` receiver created at frame entry.
Each pass of its `while (1)` loop decodes the byte at `ip` and runs the matching
case. The case reads its own inline operand bytes, and a trailing `ip++` then
steps past the last byte read. CALL hands a receiver, a method name and up to
ten arguments to the runtime's dispatcher and pushes what comes back; RETURN
leaves the loop.

The project has four modules:

- `Bytecode` (`bytecode.dfy`): bytes, values, tagged literals, the opcodes with
  their decoding and operand counts.
- `Machine` (`machine.dfy`): the reference semantics. `Step` is one pass of the
  loop as a function on a frame state; `Exec` iterates it until RETURN or a
  fault; `History` lists the frames decoded along the way. Lemmas state every
  opcode's stack effect, the instruction widths, the jump rule, and that a run
  only moves forward and stops at the first RETURN.
- `Engine` (`engine.dfy`): the engine in the source's imperative form, with a
  corrected stack layout and explicit faults. A `Frame` class holds `ip`, the
  stack array with its depth `sp`, the locals array and the call trace, and
  updates them in place. A push stores at `stack[sp]` and then increments `sp`,
  so the ten entries occupy the ten array elements. There is one method per
  case or group of cases, and CALL fills its argument array with a `for` loop.
  `Run` is the `while` loop, proved to return exactly `Exec` from the initial
  frame. Beside it, `RawPush` models STACK_PUSH as written, on the raw index
  `sp - stack` (see Findings).
- `Scenario` (`scenario.dfy`): the program and literal pool of `main`, run
  through to RETURN, with the calls it makes and the frames it passes through.

The runtime the engine calls is a parameter, `Runtime`:

- the truth test `Object_is_true` (`truthy`);
- the unboxing `Number_value` (`numberValue`);
- the dispatcher `call` (`dispatch`), which sees the calls made before it, so
  it may keep state.

Instead of the source's undefined behaviour, a run stops with an explicit
`Aborted(fault)` outcome. The frame is left as it was before the faulting
instruction. The faults are:

- a push on a full stack (the source's `assert`);
- a pop from an empty stack;
- a local index of 10 or more;
- a literal index outside the pool, or a literal of the wrong kind;
- more than ten CALL arguments;
- an opcode or operand byte past the end of the stream.

## Model

| member | source | states |
|---|---|---|
| Bytecode.Decode | vm.c:28-103 | exactly the eleven case labels decode to named opcodes; any other byte is `Unknown` of itself; a named opcode's byte is its encoding |
| Bytecode.DecodeEncode | vm.c:28-103 | decoding the byte of a named opcode gives that opcode back |
| Bytecode.OperandCount | vm.c:29-101 | CALL alone takes two inline operands; PUSH_SELF, PUSH_NIL, ADD, RETURN and unknown bytes take none; the rest take one |
| Bytecode.Width | vm.c:29-104 | an instruction occupies one to three bytes |
| Machine.Initial | vm.c:16-24 | the frame starts at byte 0 with an empty stack, no calls made, and all ten locals absent |
| Machine.Popped | vm.c:37 | the `argc` successive pops yield exactly `argc` values |
| Machine.PoppedAt | vm.c:37 | the i-th popped argument is the i-th entry from the top of the stack |
| Machine.Step | vm.c:27-105 | one pass of the loop keeps the frame's shape; a step that goes on was decoded inside the stream and moves `ip` forward; a step that stops leaves the frame unchanged; it stops with `Returned` exactly when the byte at `ip` is RETURN; past the end of the stream it faults; it adds at most one call to the trace and removes none |
| Machine.Exec | vm.c:27-105 | a run always stops, at RETURN or a fault, with a well-shaped frame; `ip` and the trace only grow; a run that returns stops at a RETURN byte inside the stream |
| Machine.History | vm.c:27-105 | the frames a run decodes start at the given frame and end at the one `Exec` stops in |
| Machine.HistoryIsChain | vm.c:27-105 | each recorded frame is reached from the one before by one step that goes on |
| Machine.HistoryAscends | vm.c:91-104 | `ip` strictly increases along every run: jumps only go forward |
| Machine.HistoryStopsAtReturn | vm.c:100-104 | every decoded instruction but the last is inside the stream and is not RETURN, so nothing after the first RETURN is decoded |
| Machine.RunThrough | vm.c:27-105 | a chain of steps that go on does not change the run's outcome |
| Machine.HistoryOfSteps | vm.c:27-105 | a chain of steps that go on, ending at a step that stops, is the run's history and fixes its outcome |
| Machine.StepWidth | vm.c:28-104 | a step that goes on reads only bytes inside the stream; it moves `ip` by the instruction's width, except JUMP_UNLESS, which adds the offset when the test is not truthy; an unknown byte is a one-byte no-op |
| Machine.StepJumpUnless | vm.c:91-104 | JUMP_UNLESS faults on an empty stack, else pops exactly the test; the next `ip` is the opcode position + 2 when it is truthy and + 2 + offset when not; locals and trace are unchanged |
| Machine.StepCall | vm.c:29-45 | CALL faults for argc > 10 or a stack of argc entries or fewer; otherwise it pops argc + 1 entries and pushes one; `argv[i]` is the i-th entry from the top; the receiver is the entry below the arguments; the entries below it are unchanged; the trace gains exactly that call, and the result pushed is the dispatcher's answer to it |
| Machine.StepAdd | vm.c:83-90 | ADD faults below two entries; otherwise it replaces the top two with one `Num` of `Number_value(a) + Number_value(b)`, `a` being the top; the rest of the stack, the locals and the trace are unchanged |
| Machine.StepSetLocal | vm.c:78-81 | SET_LOCAL k faults for k ≥ 10 or an empty stack; otherwise it pops the top into slot k, and every other slot, the rest of the stack and the trace are unchanged |
| Machine.Push | vm.c:8-11 | STACK_PUSH followed by the move to the next instruction: it goes on exactly when the depth is below 10, then the value is on top of the unchanged stack and `ip` is at the next instruction; otherwise it faults with overflow and changes nothing |
| Machine.StepPush | vm.c:46-76 | a push goes on exactly when the depth is below 10 (the check in STACK_PUSH), else it faults with overflow; it puts one value on top of the unchanged stack, moves `ip` by the instruction's width, and changes nothing else; the value is `self` for PUSH_SELF, nil for PUSH_NIL, False for PUSH_BOOL 0 and True for any other operand, the designated number or string literal for PUSH_NUMBER and PUSH_STRING, and the designated slot's content for GET_LOCAL |
| Machine.SetThenGet | vm.c:73-81 | SET_LOCAL k then GET_LOCAL k leaves the stack as it was, with slot k alone now holding the value popped |
| Engine.Frame.Snapshot | vm.c:16-21 | the frame's arrays, seen as a state, have the shape `Step` requires |
| Engine.Frame.constructor | vm.c:16-24 | the new frame's state is the initial frame |
| Engine.Frame.Push | vm.c:8-11 | on a stack below capacity, the value goes on top and nothing else changes |
| Engine.Frame.Pop | vm.c:12 | on a non-empty stack, returns the top entry and removes it |
| Engine.Frame.Step | vm.c:28-104 | one pass of the loop changes the frame exactly as `Machine.Step` says, with the same status |
| Engine.Frame.ExecuteCall | vm.c:29-45 | the CALL case agrees with `Machine.Step` |
| Engine.Frame.PopArguments | vm.c:34-37 | the `for` loop leaves exactly the `argc` popped values in `argv`, the top first, and the stack shortened by `argc` |
| Engine.Frame.ExecuteLiteral | vm.c:46-54 | the PUSH_NUMBER and PUSH_STRING cases agree with `Machine.Step` |
| Engine.Frame.ExecuteConstant | vm.c:56-71 | the PUSH_SELF, PUSH_NIL and PUSH_BOOL cases agree with `Machine.Step` |
| Engine.Frame.ExecuteGetLocal | vm.c:73-76 | the GET_LOCAL case agrees with `Machine.Step` |
| Engine.Frame.ExecuteSetLocal | vm.c:78-81 | the SET_LOCAL case agrees with `Machine.Step` |
| Engine.Frame.ExecuteAdd | vm.c:83-90 | the ADD case agrees with `Machine.Step` |
| Engine.Frame.ExecuteJumpUnless | vm.c:91-99 | the JUMP_UNLESS case agrees with `Machine.Step` |
| Engine.Run | vm.c:15-106 | the imperative loop from a fresh frame returns exactly the outcome of the reference run `Exec` from the initial frame |
| Engine.RawPush | vm.c:8-11 | successive STACK_PUSHes as written, on the raw index `sp - stack`: each stores one element unless the `assert` stopped the series |
| Engine.RawPushStores | vm.c:8-11 | while the check admits them, pushes from raw index `p` store to elements `p + 1`, `p + 2`, ..., one past the index each starts at |
| Engine.RawPushStops | vm.c:8-11 | pushes from raw index `p` hit the `assert` once the index would reach 10 |
| Engine.RawPushOverruns | vm.c:8-11 | from `sp = stack`, the ten admitted pushes store to elements 1 to 10: element 0 is never used, the tenth stores to element 10 of the 10-element array, and only an eleventh push trips the `assert` |
| Scenario.Program | vm.c:123-137 | `main`'s program is 24 bytes long and ends with RETURN at byte 23 |
| Scenario.FramesChain | vm.c:110-137 | each listed frame of `main`'s program is one step from the one before, and the last halts at RETURN |
| Scenario.MainRun | vm.c:110-137 | `main`'s run calls the dispatcher exactly twice: first (self, "print", ["the answer is:"]), then (self, "print", [32]). Local 0 ends as 32. RETURN at byte 23 halts with depth 2: each CALL pushes its result and nothing pops either |
| Scenario.MainShape | vm.c:123-137 | in `main`'s run the decoded positions are 0, 1, 3, 6, 8, 10, 11, 13, 15, 17, 18, 20, 23, so the jump at 15 is not taken; the stack is never deeper than 3 |
| Scenario.FalseRun | vm.c:131-132 | with PUSH_BOOL 0 the jump lands exactly on RETURN; only the first call is made |
| Scenario.FalseShape | vm.c:131-132 | with PUSH_BOOL 0 the decoded positions skip from 15 to 23 |
| Scenario.SumChain | vm.c:46-101 | the four frames of `SumFrames` (after nothing, each PUSH_NUMBER, and ADD) are a chain of steps, and RETURN halts in the last |
| Scenario.SumProgram | vm.c:83-87 | two PUSH_NUMBERs and ADD leave exactly one `Num` of the two unboxed literals, the second literal being unboxed first; it is the plain sum when unboxing gives back the number |
| Scenario.RunMain | vm.c:139-140 | `main`'s call of `run`, through the imperative engine, returns at byte 23 with the two calls in order, both results on the stack and local 0 holding 32 |

## Left out

- The byte values of the opcodes, defined in `opcode.h`, which is not part of
  this model. They are assumed to be 0 to 10 in the order of the `switch`;
  `Bytecode.Encode` and `Bytecode.Decode` fix them, and `Decode`'s contract
  (bytes above 10 are unknown) depends on them. Only `Scenario` uses concrete
  bytes.
- `runtime.h` is not part of this model. Object allocation, `Object_new`,
  `Number_new`, `String_new` and the Nil/True/False singletons become the
  constructors of `Value`. `Object_is_true`, `Number_value` and `call` become
  the fields of `Runtime`. The dispatcher's side effects, such as printing, are
  left out; only its arguments and the result it supplies are modelled.
- `init_runtime` and `destroy_runtime` (vm.c:139-141): process lifecycle.
- The untyped `long` literal pool and its casts (vm.c:31, vm.c:48, vm.c:53).
  Literals are tagged, and using one of the wrong kind is the `BadLiteral`
  fault. The source would reinterpret its bits.
- The raw `sp` pointer arithmetic in the engine itself. The stack is a
  sequence of depth at most 10 (an array and a depth counter in `Engine`), laid
  out as corrected. The source's layout, in which the first element is never
  used and the tenth push writes past the array, is modelled only by
  `Engine.RawPush` (see Findings).
- C `int` overflow in `(int)literals[...]` and in the sum at vm.c:87: numbers
  are mathematical integers.
- Undefined behaviour is replaced by the explicit faults listed above. The
  source would read or write out of bounds, or run past the instruction array:
  a pop from an empty stack, a local index of 10 or more, argc above 10, an
  out-of-pool literal, a stream without RETURN.

## Findings

| source | as written | input that shows it | evidently intended | confidence | as-written member | corrected member |
|---|---|---|---|---|---|---|
| vm.c:8-11 | `sp` starts at `stack`, and STACK_PUSH checks `sp-stack < STACK_MAX` and then stores through `++sp`, so a push at depth d writes element d + 1 | ten pushes in a row, e.g. ten PUSH_NIL: the check admits the tenth at depth 9, and it stores to `stack[10]`, one past the 10-element array | ten entries stored in the ten array elements 0 to 9 | not executed; high, from reading the macro | Engine.RawPushOverruns | Engine.Frame.Push |
