/** The program `main` hands to `run`: print a string, store 30 + 2 in local
    0, and print it unless the test is false; plus the two-literal sum. */
module Scenario {
  import opened Bytecode
  import opened Machine
  import Engine

  /** `main`'s literal pool: two strings, then two numbers. */
  const MainLiterals: seq<Literal> := [StrLit("the answer is:"), StrLit("print"), NumLit(30), NumLit(2)]

  /** `main`'s instruction bytes with `test` as the operand of PUSH_BOOL,
      opcodes written as their `Encode` values; RETURN is byte 23. */
  function Program(test: byte): (code: seq<byte>)
    ensures |code| == 24 && Decode(code[23]) == Return
  {
    [ 3,           // PUSH_SELF
      2, 0,        // PUSH_STRING 0
      0, 1, 1,     // CALL 1 1
      1, 2,        // PUSH_NUMBER 2
      1, 3,        // PUSH_NUMBER 3
      8,           // ADD
      7, 0,        // SET_LOCAL 0
      5, test,     // PUSH_BOOL test
      9, 6,        // JUMP_UNLESS 6
      3,           // PUSH_SELF
      6, 0,        // GET_LOCAL 0
      0, 1, 1,     // CALL 1 1
      10 ]         // RETURN
  }

  /** `main`'s program, PUSH_BOOL 1; with PUSH_BOOL 0 the jump is taken. */
  const MainCode: seq<byte> := Program(1)
  const FalseCode: seq<byte> := Program(0)

  const First := Invocation(Self, "print", [Str("the answer is:")])
  const Second := Invocation(Self, "print", [Num(32)])

  /** The position and the stack depth of each frame of a history. */
  function Positions(h: seq<State>): (ps: seq<nat>)
    ensures |ps| == |h| && forall i :: 0 <= i < |h| ==> ps[i] == h[i].ip
  {
    seq(|h|, i requires 0 <= i < |h| => h[i].ip)
  }

  function Depths(h: seq<State>): (ds: seq<nat>)
    ensures |ds| == |h| && forall i :: 0 <= i < |h| ==> ds[i] == |h[i].stack|
  {
    seq(|h|, i requires 0 <= i < |h| => |h[i].stack|)
  }

  /** Every byte of `main`'s program, for the steps below. */
  lemma ProgramBytes(test: byte)
    ensures var c := Program(test);
            && c[0] == 3 && c[1] == 2 && c[2] == 0 && c[3] == 0 && c[4] == 1 && c[5] == 1
            && c[6] == 1 && c[7] == 2 && c[8] == 1 && c[9] == 3 && c[10] == 8 && c[11] == 7
            && c[12] == 0 && c[13] == 5 && c[14] == test && c[15] == 9 && c[16] == 6 && c[17] == 3
            && c[18] == 6 && c[19] == 0 && c[20] == 0 && c[21] == 1 && c[22] == 1 && c[23] == 10
  {
  }

  /** Frame k of `main`'s run with PUSH_BOOL b, the one in which the k-th
      instruction is decoded: with b = 0 the jump goes from byte 15 straight
      to 23, frame 9 is the last, and the second call never happens. */
  function At(rt: Runtime, b: byte, k: nat): (s: State)
    ensures Valid(s)
  {
    var L, r1 := Initial().locals, rt.dispatch([], First);
    var L1 := L[0 := Num(32)];
    if k == 0 then Initial()
    else if k == 1 then State(1, [Self], L, [])
    else if k == 2 then State(3, [Self, Str("the answer is:")], L, [])
    else if k == 3 then State(6, [r1], L, [First])
    else if k == 4 then State(8, [r1, Num(30)], L, [First])
    else if k == 5 then State(10, [r1, Num(30), Num(2)], L, [First])
    else if k == 6 then State(11, [r1, Num(32)], L, [First])
    else if k == 7 then State(13, [r1], L1, [First])
    else if k == 8 then State(15, [r1, if b == 0 then False else True], L1, [First])
    else if b == 0 then State(23, [r1], L1, [First])
    else if k == 9 then State(17, [r1], L1, [First])
    else if k == 10 then State(18, [r1, Self], L1, [First])
    else if k == 11 then State(20, [r1, Self, Num(32)], L1, [First])
    else State(23, [r1, rt.dispatch([First], Second)], L1, [First, Second])
  }

  /** The frames of `main`'s run, first to last. */
  function Frames(rt: Runtime, b: byte): (h: seq<State>)
    ensures |h| == if b == 0 then 10 else 13
    ensures forall k :: 0 <= k < |h| ==> h[k] == At(rt, b, k)
  {
    seq(if b == 0 then 10 else 13, k requires 0 <= k => At(rt, b, k))
  }

  /** Byte 0: PUSH_SELF. */
  lemma SelfPushed(rt: Runtime, b: byte, code: seq<byte>)
    requires |code| > 0 && code[0] == 3
    ensures Step(rt, MainLiterals, code, At(rt, b, 0)) == Outcome(Running, At(rt, b, 1))
  {
  }

  /** Byte 1: PUSH_STRING 0. */
  lemma GreetingPushed(rt: Runtime, b: byte, code: seq<byte>)
    requires |code| > 2 && code[1] == 2 && code[2] == 0
    ensures Step(rt, MainLiterals, code, At(rt, b, 1)) == Outcome(Running, At(rt, b, 2))
  {
  }

  /** Byte 3: CALL 1 1, print with the greeting as its one argument. */
  lemma FirstCall(rt: Runtime, b: byte, code: seq<byte>)
    requires |code| > 5 && code[3] == 0 && code[4] == 1 && code[5] == 1
    ensures Step(rt, MainLiterals, code, At(rt, b, 2)) == Outcome(Running, At(rt, b, 3))
  {
    assert Popped([Self, Str("the answer is:")], 1) == [Str("the answer is:")];
  }

  /** Bytes 6 and 8: PUSH_NUMBER 2 and PUSH_NUMBER 3, the literals 30 and 2. */
  lemma NumbersPushed(rt: Runtime, b: byte, code: seq<byte>)
    requires |code| > 9 && code[6] == 1 && code[7] == 2 && code[8] == 1 && code[9] == 3
    ensures Step(rt, MainLiterals, code, At(rt, b, 3)) == Outcome(Running, At(rt, b, 4))
    ensures Step(rt, MainLiterals, code, At(rt, b, 4)) == Outcome(Running, At(rt, b, 5))
  {
  }

  /** Byte 10: ADD, 2 + 30 once both unbox to themselves. */
  lemma Added(rt: Runtime, b: byte, code: seq<byte>)
    requires |code| > 10 && code[10] == 8
    requires rt.numberValue(Num(2)) == 2 && rt.numberValue(Num(30)) == 30
    ensures Step(rt, MainLiterals, code, At(rt, b, 5)) == Outcome(Running, At(rt, b, 6))
  {
  }

  /** Bytes 11 and 13: SET_LOCAL 0, PUSH_BOOL b. */
  lemma StoredAndTested(rt: Runtime, b: byte, code: seq<byte>)
    requires |code| > 14 && code[11] == 7 && code[12] == 0 && code[13] == 5 && code[14] == b
    ensures Step(rt, MainLiterals, code, At(rt, b, 6)) == Outcome(Running, At(rt, b, 7))
    ensures Step(rt, MainLiterals, code, At(rt, b, 7)) == Outcome(Running, At(rt, b, 8))
  {
  }

  /** Byte 15: JUMP_UNLESS 6 pops the test; a truthy one goes on to byte 17,
      a falsy one lands on byte 23. */
  lemma Jumped(rt: Runtime, b: byte, code: seq<byte>)
    requires |code| > 16 && code[15] == 9 && code[16] == 6
    requires if b == 0 then !rt.truthy(False) else rt.truthy(True)
    ensures Step(rt, MainLiterals, code, At(rt, b, 8)) == Outcome(Running, At(rt, b, 9))
  {
  }

  /** Bytes 17 and 18: PUSH_SELF, GET_LOCAL 0. */
  lemma ReceiverAndLocalPushed(rt: Runtime, b: byte, code: seq<byte>)
    requires b != 0 && |code| > 19 && code[17] == 3 && code[18] == 6 && code[19] == 0
    ensures Step(rt, MainLiterals, code, At(rt, b, 9)) == Outcome(Running, At(rt, b, 10))
    ensures Step(rt, MainLiterals, code, At(rt, b, 10)) == Outcome(Running, At(rt, b, 11))
  {
  }

  /** Byte 20: CALL 1 1 prints local 0. */
  lemma SecondCall(rt: Runtime, b: byte, code: seq<byte>)
    requires b != 0 && |code| > 22 && code[20] == 0 && code[21] == 1 && code[22] == 1
    ensures Step(rt, MainLiterals, code, At(rt, b, 11)) == Outcome(Running, At(rt, b, 12))
  {
    assert Popped([rt.dispatch([], First), Self, Num(32)], 1) == [Num(32)];
  }

  /** Byte 23: RETURN halts the run in the last frame. */
  lemma Halted(rt: Runtime, b: byte, code: seq<byte>)
    requires |code| > 23 && code[23] == 10
    ensures var k := if b == 0 then 9 else 12;
            Step(rt, MainLiterals, code, At(rt, b, k)) == Outcome(Returned, At(rt, b, k))
  {
  }

  /** Frame by frame, `Frames(rt, b)` is a chain of steps of `main`'s program
      ending at RETURN. */
  lemma FramesChain(rt: Runtime, b: byte)
    requires if b == 0 then !rt.truthy(False) else rt.truthy(True)
    requires rt.numberValue(Num(2)) == 2 && rt.numberValue(Num(30)) == 30
    ensures var h := Frames(rt, b);
            && Chain(rt, MainLiterals, Program(b), h)
            && Step(rt, MainLiterals, Program(b), h[|h| - 1]) == Outcome(Returned, h[|h| - 1])
  {
    var h, code := Frames(rt, b), Program(b);
    ProgramBytes(b);
    forall i | 0 <= i < |h| - 1
      ensures Step(rt, MainLiterals, code, h[i]) == Outcome(Running, h[i + 1])
    {
      if i == 0 {
        SelfPushed(rt, b, code);
      } else if i == 1 {
        GreetingPushed(rt, b, code);
      } else if i == 2 {
        FirstCall(rt, b, code);
      } else if i < 5 {
        NumbersPushed(rt, b, code);
      } else if i == 5 {
        Added(rt, b, code);
      } else if i < 8 {
        StoredAndTested(rt, b, code);
      } else if i == 8 {
        Jumped(rt, b, code);
      } else if i < 11 {
        ReceiverAndLocalPushed(rt, b, code);
      } else {
        SecondCall(rt, b, code);
      }
    }
    Halted(rt, b, code);
  }

  /** `main`'s run: the dispatcher is called exactly twice, first with
      (self, "print", ["the answer is:"]) and then with (self, "print", [32]);
      local 0 ends as 32; RETURN at byte 23 halts with both call results
      still on the stack. */
  lemma MainRun(rt: Runtime)
    requires rt.truthy(True)
    requires rt.numberValue(Num(2)) == 2 && rt.numberValue(Num(30)) == 30
    ensures History(rt, MainLiterals, MainCode, Initial()) == Frames(rt, 1)
    ensures Exec(rt, MainLiterals, MainCode, Initial()) ==
            Outcome(Returned, State(23, [rt.dispatch([], First), rt.dispatch([First], Second)],
                                    Initial().locals[0 := Num(32)], [First, Second]))
  {
    FramesChain(rt, 1);
    HistoryOfSteps(rt, MainLiterals, MainCode, Frames(rt, 1));
  }

  /** Decoding happens at bytes 0, 1, 3, ..., 20, 23 only, so the jump falls
      through, and the stack is never deeper than 3. */
  lemma MainShape(rt: Runtime)
    requires rt.truthy(True)
    requires rt.numberValue(Num(2)) == 2 && rt.numberValue(Num(30)) == 30
    ensures var h := History(rt, MainLiterals, MainCode, Initial());
            && Positions(h) == [0, 1, 3, 6, 8, 10, 11, 13, 15, 17, 18, 20, 23]
            && Depths(h) == [0, 1, 2, 1, 2, 3, 2, 1, 2, 1, 2, 3, 2]
  {
    MainRun(rt);
  }

  /** With PUSH_BOOL 0 the popped test is False, JUMP_UNLESS 6 lands exactly
      on RETURN at byte 23, and the second call never happens. */
  lemma FalseRun(rt: Runtime)
    requires !rt.truthy(False)
    requires rt.numberValue(Num(2)) == 2 && rt.numberValue(Num(30)) == 30
    ensures History(rt, MainLiterals, FalseCode, Initial()) == Frames(rt, 0)
    ensures Exec(rt, MainLiterals, FalseCode, Initial()) ==
            Outcome(Returned, State(23, [rt.dispatch([], First)], Initial().locals[0 := Num(32)], [First]))
  {
    FramesChain(rt, 0);
    HistoryOfSteps(rt, MainLiterals, FalseCode, Frames(rt, 0));
  }

  /** With PUSH_BOOL 0, decoding happens at bytes 0, 1, 3, ..., 15 and then 23. */
  lemma FalseShape(rt: Runtime)
    requires !rt.truthy(False)
    requires rt.numberValue(Num(2)) == 2 && rt.numberValue(Num(30)) == 30
    ensures Positions(History(rt, MainLiterals, FalseCode, Initial())) == [0, 1, 3, 6, 8, 10, 11, 13, 15, 23]
  {
    FalseRun(rt);
  }

  /** The frames of the two-literal sum: after each PUSH_NUMBER, then after ADD. */
  function SumFrames(rt: Runtime, lits: seq<Literal>, i: byte, j: byte): (h: seq<State>)
    requires (i as int) < |lits| && lits[i].NumLit? && (j as int) < |lits| && lits[j].NumLit?
    ensures |h| == 4
  {
    var x, y, L := lits[i].n, lits[j].n, Initial().locals;
    [Initial(), State(2, [Num(x)], L, []), State(4, [Num(x), Num(y)], L, []),
     State(5, [Num(rt.numberValue(Num(y)) + rt.numberValue(Num(x)))], L, [])]
  }

  /** PUSH_NUMBER i, PUSH_NUMBER j, ADD, RETURN steps through `SumFrames`. */
  lemma SumChain(rt: Runtime, lits: seq<Literal>, i: byte, j: byte)
    requires (i as int) < |lits| && lits[i].NumLit? && (j as int) < |lits| && lits[j].NumLit?
    ensures var h, code := SumFrames(rt, lits, i, j), [1, i, 1, j, 8, 10];
            && Chain(rt, lits, code, h)
            && Step(rt, lits, code, h[3]) == Outcome(Returned, h[3])
  {
    var h, code := SumFrames(rt, lits, i, j), [1, i, 1, j, 8, 10];
    assert h[3].stack == h[2].stack[..0] + [h[3].stack[0]];
    forall k | 0 <= k < 3
      ensures Step(rt, lits, code, h[k]) == Outcome(Running, h[k + 1])
    {
      assert k == 0 || k == 1 || k == 2;
    }
  }

  /** Two PUSH_NUMBERs, ADD and RETURN leave one Num holding the sum of the
      two literals (the top, the second literal, unboxed first), with no call. */
  lemma SumProgram(rt: Runtime, lits: seq<Literal>, i: byte, j: byte)
    requires (i as int) < |lits| && lits[i].NumLit? && (j as int) < |lits| && lits[j].NumLit?
    ensures var x, y := lits[i].n, lits[j].n;
            Exec(rt, lits, [1, i, 1, j, 8, 10], Initial()) ==
            Outcome(Returned, State(5, [Num(rt.numberValue(Num(y)) + rt.numberValue(Num(x)))], Initial().locals, []))
    ensures var x, y := lits[i].n, lits[j].n;
            rt.numberValue(Num(x)) == x && rt.numberValue(Num(y)) == y ==>
            Exec(rt, lits, [1, i, 1, j, 8, 10], Initial()).state.stack == [Num(x + y)]
  {
    SumChain(rt, lits, i, j);
    HistoryOfSteps(rt, lits, [1, i, 1, j, 8, 10], SumFrames(rt, lits, i, j));
  }

  /** `main`'s call of `run`, through the imperative engine. */
  method RunMain(rt: Runtime) returns (o: Outcome)
    requires rt.truthy(True)
    requires rt.numberValue(Num(2)) == 2 && rt.numberValue(Num(30)) == 30
    ensures o.status == Returned && o.state.ip == 23 && Valid(o.state)
    ensures o.state.trace == [First, Second]
    ensures o.state.stack == [rt.dispatch([], First), rt.dispatch([First], Second)]
    ensures o.state.locals[0] == Num(32)
  {
    o := Engine.Run(rt, MainLiterals, MainCode);
    MainRun(rt);
  }
}
