/** The engine itself: the frame `run` keeps in local variables, updated in
    place one instruction at a time, and the fetch-decode-execute loop. */
module Engine {
  import opened Bytecode
  import opened Machine

  /** The mutable frame of one `run`: `ip`, the stack array with its depth
      `sp`, the locals array, and the calls made into the dispatcher. */
  class Frame {
    var ip: nat
    var sp: nat
    const stack: array<Value>
    const locals: array<Value>
    var trace: seq<Invocation>

    ghost predicate Valid()
      reads this
    {
      stack.Length == StackMax && locals.Length == LocalCount && sp <= StackMax && stack != locals
    }

    /** The frame as a value: the live part of the stack, bottom first. */
    function Snapshot(): (s: State)
      reads this, stack, locals
      requires Valid()
      ensures Machine.Valid(s)
    {
      State(ip, stack[..sp], locals[..], trace)
    }

    /** Frame entry: `ip` at the first byte, empty stack, locals zeroed. */
    constructor ()
      ensures Valid() && fresh(stack) && fresh(locals)
      ensures Snapshot() == Initial()
    {
      ip, sp, trace := 0, 0, [];
      stack := new Value[StackMax](_ => Absent);
      locals := new Value[LocalCount](_ => Absent);
      new;
      assert locals[..] == Initial().locals;
    }

    /** STACK_PUSH in the corrected layout: it stores at `stack[sp]` and then
        increments `sp`, so the ten entries use elements 0 to 9.  The caller
        performs the assert: depth below STACK_MAX. */
    method Push(v: Value)
      requires Valid() && sp < StackMax
      modifies this`sp, stack
      ensures Valid()
      ensures Snapshot() == old(Snapshot()).(stack := old(Snapshot()).stack + [v])
    {
      stack[sp] := v;
      sp := sp + 1;
    }

    /** STACK_POP, which checks nothing: the caller ensures the stack is not empty. */
    method Pop() returns (v: Value)
      requires Valid() && sp > 0
      modifies this`sp
      ensures Valid()
      ensures var s := old(Snapshot());
              v == s.stack[|s.stack| - 1] && Snapshot() == s.(stack := s.stack[..|s.stack| - 1])
    {
      sp := sp - 1;
      v := stack[sp];
    }

    /** One pass of the loop in `run`: the switch on `*ip`.  Each case moves
        a cursor over its operand bytes and then steps past the last byte; a
        fault is reported before anything in the frame changes. */
    method Step(rt: Runtime, lits: seq<Literal>, code: seq<byte>) returns (status: Status)
      requires Valid()
      modifies this, stack, locals
      ensures Valid()
      ensures Outcome(status, Snapshot()) == Machine.Step(rt, lits, code, old(Snapshot()))
    {
      if ip >= |code| {
        return Aborted(OutOfCode);
      }
      match Decode(code[ip]) {
        case Call =>
          status := ExecuteCall(rt, lits, code);
        case PushNumber =>
          status := ExecuteLiteral(rt, lits, code);
        case PushString =>
          status := ExecuteLiteral(rt, lits, code);
        case PushSelf =>
          status := ExecuteConstant(rt, lits, code);
        case PushNil =>
          status := ExecuteConstant(rt, lits, code);
        case PushBool =>
          status := ExecuteConstant(rt, lits, code);
        case GetLocal =>
          status := ExecuteGetLocal(rt, lits, code);
        case SetLocal =>
          status := ExecuteSetLocal(rt, lits, code);
        case Add =>
          status := ExecuteAdd(rt, lits, code);
        case JumpUnless =>
          status := ExecuteJumpUnless(rt, lits, code);
        case Return =>
          status := Returned;
        case Unknown(_) =>
          ip := ip + 1;  // no case matches: only the trailing ip++
          status := Running;
      }
    }

    /** CALL: pop argc arguments into argv, then the receiver; call the
        dispatcher and push its result. */
    method ExecuteCall(rt: Runtime, lits: seq<Literal>, code: seq<byte>) returns (status: Status)
      requires Valid() && ip < |code| && Decode(code[ip]) == Call
      modifies this, stack
      ensures Valid()
      ensures Outcome(status, Snapshot()) == Machine.Step(rt, lits, code, old(Snapshot()))
    {
      var pc := ip;
      if pc + 2 >= |code| {
        return Aborted(OutOfCode);
      }
      pc := pc + 1;  // the method literal index
      var name := code[pc] as int;
      pc := pc + 1;  // the number of arguments
      var argc := code[pc] as int;
      if name >= |lits| || !lits[name].StrLit? {
        return Aborted(BadLiteral);
      }
      if argc > ArgvMax {
        return Aborted(TooManyArgs);
      }
      if sp < argc + 1 {
        return Aborted(StackUnderflow);
      }
      ghost var s := Snapshot();
      ghost var n := |s.stack|;
      ghost var expected := Invocation(s.stack[n - argc - 1], lits[name].s, Popped(s.stack, argc));
      assert Machine.Step(rt, lits, code, s) ==
             Outcome(Running, s.(ip := s.ip + 3, stack := s.stack[..n - argc - 1] + [rt.dispatch(s.trace, expected)],
                                 trace := s.trace + [expected]));
      var argv := PopArguments(argc);
      assert argv[..argc] == expected.args;
      var receiver := Pop();
      assert receiver == expected.receiver && Snapshot() == s.(stack := s.stack[..n - argc - 1]);
      var call := Invocation(receiver, lits[name].s, argv[..argc]);  // argv[0..argc)
      var result := rt.dispatch(trace, call);
      trace := trace + [call];
      Push(result);
      ip := pc + 1;
      status := Running;
    }

    /** The `for` loop of CALL: argv[i] := STACK_POP() for i in [0, argc). */
    method PopArguments(argc: nat) returns (argv: array<Value>)
      requires Valid() && argc <= ArgvMax && argc <= sp
      modifies this`sp
      ensures Valid() && fresh(argv) && argv.Length == ArgvMax
      ensures var s := old(Snapshot());
              argv[..argc] == Popped(s.stack, argc) &&
              Snapshot() == s.(stack := s.stack[..|s.stack| - argc])
    {
      ghost var before := stack[..sp];
      argv := new Value[ArgvMax](_ => Absent);
      for i := 0 to argc
        modifies this`sp, argv
        invariant Valid()
        invariant sp == |before| - i
        invariant stack[..sp] == before[..|before| - i]
        invariant forall j :: 0 <= j < i ==> argv[j] == before[|before| - 1 - j]
      {
        argv[i] := Pop();
      }
      forall j | 0 <= j < argc
        ensures argv[..argc][j] == Popped(before, argc)[j]
      {
        PoppedAt(before, argc, j);
      }
    }

    /** PUSH_NUMBER and PUSH_STRING: push the literal the operand designates. */
    method ExecuteLiteral(rt: Runtime, lits: seq<Literal>, code: seq<byte>) returns (status: Status)
      requires Valid() && ip < |code| && Decode(code[ip]) in {PushNumber, PushString}
      modifies this, stack
      ensures Valid()
      ensures Outcome(status, Snapshot()) == Machine.Step(rt, lits, code, old(Snapshot()))
    {
      var pc := ip + 1;  // index of the literal
      if pc >= |code| {
        return Aborted(OutOfCode);
      }
      var k := code[pc] as int;
      if k >= |lits| || (Decode(code[ip]) == PushNumber) != lits[k].NumLit? {
        return Aborted(BadLiteral);
      }
      if sp >= StackMax {
        return Aborted(StackOverflow);
      }
      match lits[k] {
        case NumLit(n) => Push(Num(n));
        case StrLit(t) => Push(Str(t));
      }
      ip := pc + 1;
      status := Running;
    }

    /** PUSH_SELF, PUSH_NIL and PUSH_BOOL: push the receiver or a singleton. */
    method ExecuteConstant(rt: Runtime, lits: seq<Literal>, code: seq<byte>) returns (status: Status)
      requires Valid() && ip < |code| && Decode(code[ip]) in {PushSelf, PushNil, PushBool}
      modifies this, stack
      ensures Valid()
      ensures Outcome(status, Snapshot()) == Machine.Step(rt, lits, code, old(Snapshot()))
    {
      var pc := ip;
      var v := if Decode(code[ip]) == PushSelf then Self else Nil;
      if Decode(code[ip]) == PushBool {
        pc := pc + 1;
        if pc >= |code| {
          return Aborted(OutOfCode);
        }
        v := if code[pc] == 0 then False else True;
      }
      if sp >= StackMax {
        return Aborted(StackOverflow);
      }
      Push(v);
      ip := pc + 1;
      status := Running;
    }

    /** GET_LOCAL k: push the content of slot k. */
    method ExecuteGetLocal(rt: Runtime, lits: seq<Literal>, code: seq<byte>) returns (status: Status)
      requires Valid() && ip < |code| && Decode(code[ip]) == GetLocal
      modifies this, stack
      ensures Valid()
      ensures Outcome(status, Snapshot()) == Machine.Step(rt, lits, code, old(Snapshot()))
    {
      var pc := ip + 1;  // index of the local
      if pc >= |code| {
        return Aborted(OutOfCode);
      }
      var k := code[pc] as int;
      if k >= LocalCount {
        return Aborted(BadLocal);
      }
      if sp >= StackMax {
        return Aborted(StackOverflow);
      }
      Push(locals[k]);
      ip := pc + 1;
      status := Running;
    }

    /** SET_LOCAL k: pop into slot k, overwriting it. */
    method ExecuteSetLocal(rt: Runtime, lits: seq<Literal>, code: seq<byte>) returns (status: Status)
      requires Valid() && ip < |code| && Decode(code[ip]) == SetLocal
      modifies this, locals
      ensures Valid()
      ensures Outcome(status, Snapshot()) == Machine.Step(rt, lits, code, old(Snapshot()))
    {
      var pc := ip + 1;  // index of the local
      if pc >= |code| {
        return Aborted(OutOfCode);
      }
      var k := code[pc] as int;
      if k >= LocalCount {
        return Aborted(BadLocal);
      }
      if sp == 0 {
        return Aborted(StackUnderflow);
      }
      var v := Pop();
      locals[k] := v;
      ip := pc + 1;
      status := Running;
    }

    /** ADD: pop a, pop b, push the Num of their unboxed sum. */
    method ExecuteAdd(rt: Runtime, lits: seq<Literal>, code: seq<byte>) returns (status: Status)
      requires Valid() && ip < |code| && Decode(code[ip]) == Add
      modifies this, stack
      ensures Valid()
      ensures Outcome(status, Snapshot()) == Machine.Step(rt, lits, code, old(Snapshot()))
    {
      if sp < 2 {
        return Aborted(StackUnderflow);
      }
      ghost var s := Snapshot();
      ghost var n := |s.stack|;
      assert Machine.Step(rt, lits, code, s) ==
             Outcome(Running, s.(ip := s.ip + 1,
                                 stack := s.stack[..n - 2] + [Num(rt.numberValue(s.stack[n - 1]) + rt.numberValue(s.stack[n - 2]))]));
      var a := Pop();
      var b := Pop();
      Push(Num(rt.numberValue(a) + rt.numberValue(b)));
      ip := ip + 1;
      status := Running;
    }

    /** JUMP_UNLESS offset: pop the test; unless it is truthy, skip `offset`
        bytes before the trailing step. */
    method ExecuteJumpUnless(rt: Runtime, lits: seq<Literal>, code: seq<byte>) returns (status: Status)
      requires Valid() && ip < |code| && Decode(code[ip]) == JumpUnless
      modifies this
      ensures Valid()
      ensures Outcome(status, Snapshot()) == Machine.Step(rt, lits, code, old(Snapshot()))
    {
      var pc := ip + 1;  // the forward offset in bytes
      if pc >= |code| {
        return Aborted(OutOfCode);
      }
      var offset := code[pc] as int;
      if sp == 0 {
        return Aborted(StackUnderflow);
      }
      var test := Pop();
      if !rt.truthy(test) {
        pc := pc + offset;
      }
      ip := pc + 1;
      status := Running;
    }
  }

  /** What a series of STACK_PUSHes on the raw C array does: the array
      elements stored to, in order, and whether the macro's `assert` stopped
      the series. */
  datatype RawPushes = RawPushes(slots: seq<nat>, stopped: bool)

  /** `count` successive STACK_PUSHes as written, from the raw index
      `p = sp - stack`: each is admitted when `p < STACK_MAX`, moves `p` to
      `p + 1` (`++sp`) and stores to that element. */
  function RawPush(p: nat, count: nat): (r: RawPushes)
    ensures |r.slots| <= count
    ensures !r.stopped ==> |r.slots| == count
    decreases count
  {
    if count == 0 then RawPushes([], false)
    else if p >= StackMax then RawPushes([], true)
    else
      var rest := RawPush(p + 1, count - 1);
      RawPushes([p + 1] + rest.slots, rest.stopped)
  }

  /** While the check admits them, pushes from raw index `p` store to the
      elements `p + 1`, `p + 2`, ..., one past the index each one starts at. */
  lemma {:induction false} RawPushStores(p: nat, count: nat)
    requires p + count <= StackMax
    ensures var r := RawPush(p, count);
            && !r.stopped && |r.slots| == count
            && forall i :: 0 <= i < count ==> r.slots[i] == p + 1 + i
    decreases count
  {
    if count > 0 {
      RawPushStores(p + 1, count - 1);
    }
  }

  /** Pushes starting at raw index `p` hit the `assert` once `p` would reach
      STACK_MAX. */
  lemma {:induction false} RawPushStops(p: nat, count: nat)
    requires p <= StackMax < p + count
    ensures RawPush(p, count).stopped
    decreases count
  {
    if p < StackMax {
      RawPushStops(p + 1, count - 1);
    }
  }

  /** From `sp = stack`, the ten pushes the check admits store to elements
      1 to 10: element 0 is never used, and the tenth stores to element 10,
      past the end of the 10-element array; only an eleventh push trips the
      `assert`. */
  lemma RawPushOverruns()
    ensures var r := RawPush(0, StackMax);
            && !r.stopped
            && (forall i :: 0 <= i < StackMax ==> r.slots[i] == i + 1)
            && 0 !in r.slots
            && r.slots[StackMax - 1] == StackMax
    ensures RawPush(0, StackMax + 1).stopped
  {
    RawPushStores(0, StackMax);
    RawPushStops(0, StackMax + 1);
  }

  /** `run`: set up a fresh frame and execute instructions until RETURN (or a
      fault).  The outcome is exactly the reference run from the initial frame. */
  method Run(rt: Runtime, lits: seq<Literal>, code: seq<byte>) returns (o: Outcome)
    ensures o == Exec(rt, lits, code, Initial())
  {
    var frame := new Frame();
    while true
      invariant frame.Valid()
      invariant Exec(rt, lits, code, frame.Snapshot()) == Exec(rt, lits, code, Initial())
      decreases |code| - frame.ip
    {
      var status := frame.Step(rt, lits, code);
      if status != Running {
        return Outcome(status, frame.Snapshot());
      }
    }
  }
}
