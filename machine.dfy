/** Reference semantics of `run`: one decode-execute step as a function on a
    frame state, the whole run as its iteration, and the properties of both. */
module Machine {
  import opened Bytecode

  /** One call into the dispatcher: receiver, method name and `argv[0..argc)`. */
  datatype Invocation = Invocation(receiver: Value, name: string, args: seq<Value>)

  /** The runtime the engine calls but does not implement: the truth test
      `Object_is_true`, the unchecked unboxing `Number_value`, and the
      dispatcher `call`, whose result may depend on every earlier call. */
  datatype Runtime = Runtime(
    truthy: Value -> bool,
    numberValue: Value -> int,
    dispatch: (seq<Invocation>, Invocation) -> Value)

  /** The frame of one invocation: instruction pointer, operand stack (bottom
      first), the ten locals, and the calls made so far. */
  datatype State = State(ip: nat, stack: seq<Value>, locals: seq<Value>, trace: seq<Invocation>)

  /** Why a run stops other than at RETURN.  The source aborts on a full stack
      (the assert in STACK_PUSH); every other case is undefined behaviour there. */
  datatype Fault =
    | StackOverflow   // push at depth STACK_MAX
    | StackUnderflow  // pop of an empty stack
    | BadLocal        // local index outside the ten slots
    | BadLiteral      // literal index outside the pool, or of the wrong kind
    | TooManyArgs     // argc larger than argv
    | OutOfCode       // opcode or operand byte past the end of the stream

  datatype Status = Running | Returned | Aborted(fault: Fault)

  datatype Outcome = Outcome(status: Status, state: State)

  /** The frame's shape: the bounded stack and exactly ten locals. */
  predicate Valid(s: State) {
    |s.stack| <= StackMax && |s.locals| == LocalCount
  }

  /** The frame `run` sets up: at the first byte, empty stack, every local absent. */
  function Initial(): (s: State)
    ensures Valid(s) && s.ip == 0 && s.stack == [] && s.trace == []
    ensures forall k :: 0 <= k < |s.locals| ==> s.locals[k] == Absent
  {
    State(0, [], seq(LocalCount, _ => Absent), [])
  }

  /** The top `n` entries of `stack`, in the order n successive pops return them. */
  function Popped(stack: seq<Value>, n: nat): (args: seq<Value>)
    requires n <= |stack|
    ensures |args| == n
  {
    if n == 0 then [] else [stack[|stack| - 1]] + Popped(stack[..|stack| - 1], n - 1)
  }

  /** The i-th popped entry is the i-th from the top. */
  lemma {:induction false} PoppedAt(stack: seq<Value>, n: nat, i: nat)
    requires i < n <= |stack|
    ensures Popped(stack, n)[i] == stack[|stack| - 1 - i]
  {
    if i > 0 {
      PoppedAt(stack[..|stack| - 1], n - 1, i - 1);
    }
  }

  function Abort(f: Fault, s: State): Outcome {
    Outcome(Aborted(f), s)
  }

  /** STACK_PUSH followed by the move to `next`. */
  function Push(s: State, v: Value, next: nat): (o: Outcome)
    ensures o.status == Running <==> |s.stack| < StackMax
    ensures o.status != Running ==> o == Abort(StackOverflow, s)
    ensures o.status == Running ==> o.state == s.(ip := next, stack := s.stack + [v])
  {
    if |s.stack| >= StackMax then Abort(StackOverflow, s)
    else Outcome(Running, s.(ip := next, stack := s.stack + [v]))
  }

  /** One pass of the `while (1)` loop: decode the byte at `ip`, run its case
      (operands are the bytes after the opcode), then step past the last byte. */
  function Step(rt: Runtime, lits: seq<Literal>, code: seq<byte>, s: State): (o: Outcome)
    requires Valid(s)
    ensures Valid(o.state)
    ensures o.status == Running ==> s.ip < |code| && s.ip < o.state.ip
    ensures o.status != Running ==> o.state == s
    ensures o.status == Returned <==> s.ip < |code| && Decode(code[s.ip]) == Return
    ensures s.ip >= |code| ==> o.status == Aborted(OutOfCode)
    ensures s.trace <= o.state.trace && |o.state.trace| <= |s.trace| + 1
  {
    if s.ip >= |code| then Abort(OutOfCode, s)
    else
      var ip, n := s.ip, |s.stack|;
      match Decode(code[ip])
      case Call =>
        if ip + 2 >= |code| then Abort(OutOfCode, s)
        else
          var name, argc := code[ip + 1] as int, code[ip + 2] as int;
          if name >= |lits| || !lits[name].StrLit? then Abort(BadLiteral, s)
          else if argc > ArgvMax then Abort(TooManyArgs, s)
          else if n < argc + 1 then Abort(StackUnderflow, s)
          else
            var call := Invocation(s.stack[n - argc - 1], lits[name].s, Popped(s.stack, argc));
            var result := rt.dispatch(s.trace, call);
            Outcome(Running, s.(ip := ip + 3,
                                stack := s.stack[..n - argc - 1] + [result],
                                trace := s.trace + [call]))
      case PushNumber =>
        if ip + 1 >= |code| then Abort(OutOfCode, s)
        else
          var k := code[ip + 1] as int;
          if k >= |lits| || !lits[k].NumLit? then Abort(BadLiteral, s)
          else Push(s, Num(lits[k].n), ip + 2)
      case PushString =>
        if ip + 1 >= |code| then Abort(OutOfCode, s)
        else
          var k := code[ip + 1] as int;
          if k >= |lits| || !lits[k].StrLit? then Abort(BadLiteral, s)
          else Push(s, Str(lits[k].s), ip + 2)
      case PushSelf =>
        Push(s, Self, ip + 1)
      case PushNil =>
        Push(s, Nil, ip + 1)
      case PushBool =>
        if ip + 1 >= |code| then Abort(OutOfCode, s)
        else Push(s, if code[ip + 1] == 0 then False else True, ip + 2)
      case GetLocal =>
        if ip + 1 >= |code| then Abort(OutOfCode, s)
        else
          var k := code[ip + 1] as int;
          if k >= LocalCount then Abort(BadLocal, s)
          else Push(s, s.locals[k], ip + 2)
      case SetLocal =>
        if ip + 1 >= |code| then Abort(OutOfCode, s)
        else
          var k := code[ip + 1] as int;
          if k >= LocalCount then Abort(BadLocal, s)
          else if n == 0 then Abort(StackUnderflow, s)
          else Outcome(Running, s.(ip := ip + 2, stack := s.stack[..n - 1], locals := s.locals[k := s.stack[n - 1]]))
      case Add =>
        if n < 2 then Abort(StackUnderflow, s)
        else
          var a, b := s.stack[n - 1], s.stack[n - 2];
          Outcome(Running, s.(ip := ip + 1, stack := s.stack[..n - 2] + [Num(rt.numberValue(a) + rt.numberValue(b))]))
      case JumpUnless =>
        if ip + 1 >= |code| then Abort(OutOfCode, s)
        else
          var offset := code[ip + 1] as int;
          if n == 0 then Abort(StackUnderflow, s)
          else
            var test := s.stack[n - 1];
            Outcome(Running, s.(ip := (if rt.truthy(test) then ip + 1 else ip + 1 + offset) + 1,
                                stack := s.stack[..n - 1]))
      case Return =>
        Outcome(Returned, s)
      case Unknown(_) =>
        Outcome(Running, s.(ip := ip + 1))
  }

  /** The whole run from `s`: step until RETURN or a fault.  It is total
      because every step that goes on moves `ip` forward. */
  function Exec(rt: Runtime, lits: seq<Literal>, code: seq<byte>, s: State): (o: Outcome)
    requires Valid(s)
    ensures o.status != Running && Valid(o.state)
    ensures s.ip <= o.state.ip && s.trace <= o.state.trace
    ensures o.status == Returned ==> o.state.ip < |code| && Decode(code[o.state.ip]) == Return
    decreases |code| - s.ip
  {
    var o := Step(rt, lits, code, s);
    if o.status == Running then Exec(rt, lits, code, o.state) else o
  }

  /** `ip` strictly increases along `h`. */
  predicate Ascending(h: seq<State>) {
    forall i, j :: 0 <= i < j < |h| ==> h[i].ip < h[j].ip
  }

  /** Every frame of `h` but the last is at an instruction other than RETURN. */
  predicate NoReturnBeforeLast(code: seq<byte>, h: seq<State>) {
    forall i :: 0 <= i < |h| - 1 ==> h[i].ip < |code| && Decode(code[h[i].ip]) != Return
  }

  /** Consecutive frames of `h` are related by steps that go on. */
  predicate Chain(rt: Runtime, lits: seq<Literal>, code: seq<byte>, h: seq<State>) {
    && (forall i :: 0 <= i < |h| ==> Valid(h[i]))
    && (forall i {:trigger Step(rt, lits, code, h[i])} :: 0 <= i < |h| - 1 ==>
          Step(rt, lits, code, h[i]) == Outcome(Running, h[i + 1]))
  }

  /** The frame at each decoded instruction of the run from `s`, ending with
      the frame in which the run stops. */
  function History(rt: Runtime, lits: seq<Literal>, code: seq<byte>, s: State): (h: seq<State>)
    requires Valid(s)
    ensures |h| >= 1 && h[0] == s && h[|h| - 1] == Exec(rt, lits, code, s).state
    decreases |code| - s.ip
  {
    var o := Step(rt, lits, code, s);
    if o.status == Running then [s] + History(rt, lits, code, o.state) else [s]
  }

  /** Each frame of the history is reached from the one before by one step. */
  lemma {:induction false} HistoryIsChain(rt: Runtime, lits: seq<Literal>, code: seq<byte>, s: State)
    requires Valid(s)
    ensures Chain(rt, lits, code, History(rt, lits, code, s))
    decreases |code| - s.ip
  {
    var o := Step(rt, lits, code, s);
    if o.status == Running {
      HistoryIsChain(rt, lits, code, o.state);
      var h, t := History(rt, lits, code, s), History(rt, lits, code, o.state);
      assert h == [s] + t;
      forall i | 0 <= i < |h|
        ensures Valid(h[i])
      {
        if i > 0 {
          assert h[i] == t[i - 1];
        }
      }
      forall i | 0 <= i < |h| - 1
        ensures Step(rt, lits, code, h[i]) == Outcome(Running, h[i + 1])
      {
        if i > 0 {
          assert h[i] == t[i - 1] && h[i + 1] == t[i];
        }
      }
    }
  }

  /** Termination, instruction by instruction: `ip` strictly increases along
      the run. */
  lemma {:induction false} HistoryAscends(rt: Runtime, lits: seq<Literal>, code: seq<byte>, s: State)
    requires Valid(s)
    ensures Ascending(History(rt, lits, code, s))
    decreases |code| - s.ip
  {
    var o := Step(rt, lits, code, s);
    if o.status == Running {
      HistoryAscends(rt, lits, code, o.state);
      var h, t := History(rt, lits, code, s), History(rt, lits, code, o.state);
      assert h == [s] + t;
      assert t[0] == o.state;
      forall i, j | 0 <= i < j < |h|
        ensures h[i].ip < h[j].ip
      {
        if i == 0 {
          if j > 1 {
            assert t[0].ip < t[j - 1].ip;
          }
        } else {
          assert h[i] == t[i - 1] && h[j] == t[j - 1];
        }
      }
    }
  }

  /** Every decoded instruction but the last is in the stream and is not
      RETURN, so nothing after a RETURN is ever decoded. */
  lemma {:induction false} HistoryStopsAtReturn(rt: Runtime, lits: seq<Literal>, code: seq<byte>, s: State)
    requires Valid(s)
    ensures NoReturnBeforeLast(code, History(rt, lits, code, s))
    decreases |code| - s.ip
  {
    var o := Step(rt, lits, code, s);
    if o.status == Running {
      HistoryStopsAtReturn(rt, lits, code, o.state);
      var h, t := History(rt, lits, code, s), History(rt, lits, code, o.state);
      assert h == [s] + t;
      forall i | 0 <= i < |h| - 1
        ensures h[i].ip < |code| && Decode(code[h[i].ip]) != Return
      {
        if i > 0 {
          assert h[i] == t[i - 1];
        }
      }
    }
  }

  /** A chain of steps that go on leads the run from its first frame to
      its last: the outcome from either is the same. */
  lemma {:induction false} RunThrough(rt: Runtime, lits: seq<Literal>, code: seq<byte>, h: seq<State>)
    requires |h| >= 1 && Chain(rt, lits, code, h)
    ensures Exec(rt, lits, code, h[0]) == Exec(rt, lits, code, h[|h| - 1])
  {
    if |h| > 1 {
      var t := h[1..];
      forall i | 0 <= i < |t| - 1
        ensures Step(rt, lits, code, t[i]) == Outcome(Running, t[i + 1])
      {
        assert t[i] == h[i + 1] && t[i + 1] == h[i + 2];
      }
      assert Chain(rt, lits, code, t);
      RunThrough(rt, lits, code, t);
      assert Step(rt, lits, code, h[0]) == Outcome(Running, t[0]);
    }
  }

  /** Conversely to HistoryIsChain: a chain of steps that go on, ending in a
      step that does not, is the history of the run and fixes its outcome. */
  lemma {:induction false} HistoryOfSteps(rt: Runtime, lits: seq<Literal>, code: seq<byte>, h: seq<State>)
    requires |h| >= 1 && Chain(rt, lits, code, h)
    requires Step(rt, lits, code, h[|h| - 1]).status != Running
    ensures History(rt, lits, code, h[0]) == h
    ensures Exec(rt, lits, code, h[0]) == Step(rt, lits, code, h[|h| - 1])
  {
    if |h| > 1 {
      var t := h[1..];
      forall i | 0 <= i < |t| - 1
        ensures Step(rt, lits, code, t[i]) == Outcome(Running, t[i + 1])
      {
        assert t[i] == h[i + 1] && t[i + 1] == h[i + 2];
      }
      assert Chain(rt, lits, code, t);
      HistoryOfSteps(rt, lits, code, t);
      assert Step(rt, lits, code, h[0]) == Outcome(Running, t[0]);
      assert h == [h[0]] + t;
    }
  }

  /** Instruction width: a step that goes on, other than JUMP_UNLESS, moves
      `ip` by one plus the opcode's operand count, and all those bytes lie in
      the stream; JUMP_UNLESS moves it by two plus the offset exactly when the
      popped test is not truthy; an unknown byte is a one-byte no-op. */
  lemma StepWidth(rt: Runtime, lits: seq<Literal>, code: seq<byte>, s: State)
    requires Valid(s) && Step(rt, lits, code, s).status == Running
    ensures s.ip + Width(Decode(code[s.ip])) <= |code|
    ensures Decode(code[s.ip]) != JumpUnless ==>
              Step(rt, lits, code, s).state.ip == s.ip + Width(Decode(code[s.ip]))
    ensures Decode(code[s.ip]) == JumpUnless ==>
              |s.stack| > 0 &&
              Step(rt, lits, code, s).state.ip ==
                s.ip + 2 + (if rt.truthy(s.stack[|s.stack| - 1]) then 0 else code[s.ip + 1] as int)
    ensures Decode(code[s.ip]).Unknown? ==> Step(rt, lits, code, s).state == s.(ip := s.ip + 1)
  {
  }

  /** JUMP_UNLESS pops exactly the test; it falls through to the next
      instruction when the test is truthy and skips `offset` more bytes when not. */
  lemma StepJumpUnless(rt: Runtime, lits: seq<Literal>, code: seq<byte>, s: State)
    requires Valid(s) && s.ip + 1 < |code| && Decode(code[s.ip]) == JumpUnless
    ensures var o := Step(rt, lits, code, s);
            o.status == (if |s.stack| == 0 then Aborted(StackUnderflow) else Running)
    ensures var o := Step(rt, lits, code, s);
            |s.stack| > 0 ==>
              && o.state.stack == s.stack[..|s.stack| - 1]
              && o.state.locals == s.locals && o.state.trace == s.trace
              && (rt.truthy(s.stack[|s.stack| - 1]) ==> o.state.ip == s.ip + 2)
              && (!rt.truthy(s.stack[|s.stack| - 1]) ==> o.state.ip == s.ip + 2 + code[s.ip + 1] as int)
  {
  }

  /** CALL: with operands in the stream and a method-name literal, it fails
      for argc > 10 or fewer than argc + 1 entries; otherwise it pops argc + 1
      entries and pushes the one result, passing argv[i] = i-th entry from the
      top and the entry below the arguments as receiver, and appends exactly
      that call to the trace. */
  lemma StepCall(rt: Runtime, lits: seq<Literal>, code: seq<byte>, s: State)
    requires Valid(s) && s.ip + 2 < |code| && Decode(code[s.ip]) == Call
    requires code[s.ip + 1] as int < |lits| && lits[code[s.ip + 1]].StrLit?
    ensures var o, argc, n := Step(rt, lits, code, s), code[s.ip + 2] as int, |s.stack|;
            o.status == if argc > ArgvMax then Aborted(TooManyArgs)
                        else if n <= argc then Aborted(StackUnderflow)
                        else Running
    ensures var o, argc, n := Step(rt, lits, code, s), code[s.ip + 2] as int, |s.stack|;
            o.status == Running ==>
              && o.state.ip == s.ip + 3
              && |o.state.trace| == |s.trace| + 1 && o.state.trace[..|s.trace|] == s.trace
              && var call := o.state.trace[|s.trace|];
              && call.name == lits[code[s.ip + 1]].s
              && |call.args| == argc
              && (forall i :: 0 <= i < argc ==> call.args[i] == s.stack[n - 1 - i])
              && call.receiver == s.stack[n - 1 - argc]
              && |o.state.stack| == n - argc
              && o.state.stack[..n - argc - 1] == s.stack[..n - argc - 1]
              && o.state.stack[n - argc - 1] == rt.dispatch(s.trace, call)
              && o.state.locals == s.locals
  {
    var argc, n := code[s.ip + 2] as int, |s.stack|;
    if argc <= ArgvMax && argc < n {
      forall i | 0 <= i < argc
        ensures Popped(s.stack, argc)[i] == s.stack[n - 1 - i]
      {
        PoppedAt(s.stack, argc, i);
      }
    }
  }

  /** ADD pops two entries and pushes one Num of their unboxed sum, `a` being
      the top; depth falls by one and the rest of the frame is unchanged. */
  lemma StepAdd(rt: Runtime, lits: seq<Literal>, code: seq<byte>, s: State)
    requires Valid(s) && s.ip < |code| && Decode(code[s.ip]) == Add
    ensures var o := Step(rt, lits, code, s);
            o.status == (if |s.stack| < 2 then Aborted(StackUnderflow) else Running)
    ensures var o, n := Step(rt, lits, code, s), |s.stack|;
            n >= 2 ==>
              && o.state.ip == s.ip + 1
              && |o.state.stack| == n - 1
              && o.state.stack[..n - 2] == s.stack[..n - 2]
              && o.state.stack[n - 2] == Num(rt.numberValue(s.stack[n - 1]) + rt.numberValue(s.stack[n - 2]))
              && o.state.locals == s.locals && o.state.trace == s.trace
  {
  }

  /** SET_LOCAL k pops the top into slot k and changes no other slot. */
  lemma StepSetLocal(rt: Runtime, lits: seq<Literal>, code: seq<byte>, s: State)
    requires Valid(s) && s.ip + 1 < |code| && Decode(code[s.ip]) == SetLocal
    ensures var o, k := Step(rt, lits, code, s), code[s.ip + 1] as int;
            o.status == if k >= LocalCount then Aborted(BadLocal)
                        else if |s.stack| == 0 then Aborted(StackUnderflow)
                        else Running
    ensures var o, k, n := Step(rt, lits, code, s), code[s.ip + 1] as int, |s.stack|;
            o.status == Running ==>
              && o.state.ip == s.ip + 2
              && o.state.stack == s.stack[..n - 1]
              && o.state.locals[k] == s.stack[n - 1]
              && (forall j :: 0 <= j < LocalCount && j != k ==> o.state.locals[j] == s.locals[j])
              && o.state.trace == s.trace
  {
  }

  /** The six push opcodes: each goes on exactly when the stack is below
      STACK_MAX (given its operand is usable), pushes one value on top of the
      unchanged stack, and leaves locals and trace alone. */
  lemma StepPush(rt: Runtime, lits: seq<Literal>, code: seq<byte>, s: State)
    requires Valid(s) && s.ip < |code|
    requires Decode(code[s.ip]) in {PushSelf, PushNil, PushBool, PushNumber, PushString, GetLocal}
    requires Decode(code[s.ip]) != PushSelf && Decode(code[s.ip]) != PushNil ==> s.ip + 1 < |code|
    requires Decode(code[s.ip]) == PushNumber ==> code[s.ip + 1] as int < |lits| && lits[code[s.ip + 1]].NumLit?
    requires Decode(code[s.ip]) == PushString ==> code[s.ip + 1] as int < |lits| && lits[code[s.ip + 1]].StrLit?
    requires Decode(code[s.ip]) == GetLocal ==> code[s.ip + 1] as int < LocalCount
    ensures var o := Step(rt, lits, code, s);
            o.status == (if |s.stack| < StackMax then Running else Aborted(StackOverflow))
    ensures var o, op := Step(rt, lits, code, s), Decode(code[s.ip]);
            |s.stack| < StackMax ==>
              && o.state.ip == s.ip + Width(op)
              && |o.state.stack| == |s.stack| + 1 && o.state.stack[..|s.stack|] == s.stack
              && o.state.locals == s.locals && o.state.trace == s.trace
    ensures var o, op := Step(rt, lits, code, s), Decode(code[s.ip]);
            |s.stack| < StackMax ==>
              var top := o.state.stack[|s.stack|];
              && (op == PushSelf ==> top == Self)
              && (op == PushNil ==> top == Nil)
              && (op == PushBool ==> top == if code[s.ip + 1] == 0 then False else True)
              && (op == PushNumber ==> top == Num(lits[code[s.ip + 1]].n))
              && (op == PushString ==> top == Str(lits[code[s.ip + 1]].s))
              && (op == GetLocal ==> top == s.locals[code[s.ip + 1]])
  {
  }

  /** SET_LOCAL k then GET_LOCAL k puts back exactly the value popped: the
      stack is as before, and only slot k now holds that value. */
  lemma SetThenGet(rt: Runtime, lits: seq<Literal>, code: seq<byte>, s: State)
    requires Valid(s) && s.ip + 3 < |code| && |s.stack| > 0
    requires Decode(code[s.ip]) == SetLocal && Decode(code[s.ip + 2]) == GetLocal
    requires code[s.ip + 1] == code[s.ip + 3] && (code[s.ip + 1] as int) < LocalCount
    ensures var o1 := Step(rt, lits, code, s);
            o1.status == Running &&
            Step(rt, lits, code, o1.state) ==
              Outcome(Running, s.(ip := s.ip + 4,
                                  locals := s.locals[code[s.ip + 1] as int := s.stack[|s.stack| - 1]]))
  {
    var o1 := Step(rt, lits, code, s);
    assert o1.state.stack + [s.stack[|s.stack| - 1]] == s.stack;
  }
}
