/**
  Certificates at work: a loop whose body throws, catches and breaks, and a method
  that catches what the method it calls throws.
 */
module VmExample {

  import opened Common
  import opened VmCode
  import opened VmMachine
  import opened VmControl
  import opened VmVerifier
  import opened VmRunLoop

  function Im(op: nat, arg: Arg): Instr { Instr(op, MODE_IM, 0, [arg]) }
  function Op(op: nat): Instr { Instr(op, 0, 0, []) }

  /** while (x) { try { throw e; } catch { break; } } */
  const LOOP: seq<Instr> := [
    Im(52, 21),   //  0  SETBREAK 21
    Im(2, 1),     //  3  PUSH
    Im(48, 21),   //  6  JMPZ 21
    Im(54, 16),   //  9  TRY 16
    Im(2, 7),     // 12  PUSH
    Op(55),       // 15  THROW
    Op(1),        // 16  POP
    Op(51),       // 17  BREAK
    Im(50, 3),    // 18  JMP 3
    Im(52, -1),   // 21  SETBREAK -1
    Op(44)]       // 24  VRET

  const BOUNDS: seq<Bound> := [
    Bound(0, 1), Bound(0, 1), Bound(1, 1), Bound(0, 1), Bound(0, 1), Bound(1, 1),
    Bound(1, 1), Bound(0, 1), Bound(0, 1), Bound(0, 1), Bound(0, 1), Bound(0, 0)]

  const ADDRESSES: seq<nat> := [0, 3, 6, 9, 12, 15, 16, 17, 18, 21, 24, 25]

  lemma Addresses(k: nat)
    requires k <= |LOOP|
    ensures Offset(LOOP, k) == ADDRESSES[k]
  {
    if k > 0 {
      Addresses(k - 1);
    }
  }

  function LoopProgram(): Program {
    Program([Method(Signature("main", true, 0), Assemble(LOOP), [], false, false)])
  }

  lemma LoopTargeted()
    ensures Targeted([LOOP])
  {
    Addresses(9);
    Addresses(6);
    Addresses(1);
    forall k | 0 <= k < |LOOP|
      ensures TargetOk(LOOP, LOOP[k])
    {
      hide Offset;
      assert Boundary(LOOP, 21) && Boundary(LOOP, 16) && Boundary(LOOP, 3);
      assert AfterJump(LOOP, 21) by { assert LOOP[9 - 1].op == OP_JMP; }
    }
  }

  lemma LoopAdmitsAt(pc: int, h: nat, d: nat)
    requires forall k :: 0 <= k <= |LOOP| && ADDRESSES[k] == pc ==> Admits(BOUNDS[k], h, d)
    ensures AdmitsAt(LOOP, BOUNDS, pc, h, d)
  {
    hide Offset;
    forall k | 0 <= k <= |LOOP| && Offset(LOOP, k) == pc
      ensures Admits(BOUNDS[k], h, d)
    {
      Addresses(k);
    }
  }

  lemma LoopPlain(p: Program, m: Method, k: nat)
    requires k in {1, 4, 5, 6, 7, 10}
    ensures AcceptsInstr(p, m, LOOP, BOUNDS, k)
  {
    hide Offset, AdmitsAt;
  }

  lemma LoopSetBreak(p: Program, m: Method)
    ensures AcceptsInstr(p, m, LOOP, BOUNDS, 0) && AcceptsInstr(p, m, LOOP, BOUNDS, 9)
  {
    hide Offset, AdmitsAt;
    LoopAdmitsAt(21, 0, 1);
    LoopAdmitsAt(18, 0, 1);
  }

  lemma LoopJumps(p: Program, m: Method)
    ensures AcceptsInstr(p, m, LOOP, BOUNDS, 2) && AcceptsInstr(p, m, LOOP, BOUNDS, 8)
  {
    hide Offset, AdmitsAt;
    LoopAdmitsAt(21, 0, 1);
    LoopAdmitsAt(3, 0, 1);
  }

  lemma LoopTry(p: Program, m: Method)
    ensures AcceptsInstr(p, m, LOOP, BOUNDS, 3)
  {
    hide Offset, AdmitsAt;
    LoopAdmitsAt(16, 1, 1);
  }

  /** The verifier accepts the loop. */
  lemma LoopAccepted()
    ensures Accepts(LoopProgram(), [LOOP], [BOUNDS])
  {
    hide Offset, Assemble, AcceptsInstr, Targeted;
    LoopTargeted();
    var p, m := LoopProgram(), LoopProgram().methods[0];
    LoopSetBreak(p, m);
    LoopJumps(p, m);
    LoopTry(p, m);
    forall k | 0 <= k < |LOOP|
      ensures AcceptsInstr(p, m, LOOP, BOUNDS, k)
    {
      if k !in {0, 2, 3, 8, 9} {
        LoopPlain(p, m, k);
      }
    }
  }

  // ---------------------------------------------------------------- a throw across frames

  /** try { ThrowMethod(); } catch { } */
  const CATCHER: seq<Instr> := [
    Im(54, 7),   // 0  TRY 7
    Im(43, 0),   // 3  SCALL 0
    Op(44),      // 6  VRET
    Op(1),       // 7  POP
    Op(44)]      // 8  VRET

  /** throw e; */
  const THROWER: seq<Instr> := [
    Im(2, 1),    // 0  PUSH
    Op(55)]      // 3  THROW

  const CALLS: Listing := [CATCHER, THROWER]

  const CALLBOUNDS: Certificate := [
    [Bound(0, 1), Bound(0, 1), Bound(0, 1), Bound(1, 1), Bound(0, 1), Bound(0, 0)],
    [Bound(0, 1), Bound(1, 1), Bound(0, 0)]]

  const THROWS := Signature("Thrower", true, 0)

  function CatchMethod(): Method {
    Method(Signature("Catcher", true, 0), Assemble(CATCHER), [THROWS], false, false)
  }

  function ThrowMethod(): Method {
    Method(THROWS, Assemble(THROWER), [], false, false)
  }

  function CallProgram(): Program {
    Program([CatchMethod(), ThrowMethod()])
  }

  lemma CallOffsets()
    ensures Offset(CATCHER, 0) == 0 && Offset(CATCHER, 1) == 3 && Offset(CATCHER, 2) == 6
    ensures Offset(CATCHER, 3) == 7 && Offset(CATCHER, 4) == 8 && Offset(CATCHER, 5) == 9
    ensures Offset(THROWER, 0) == 0 && Offset(THROWER, 1) == 3 && Offset(THROWER, 2) == 4
  {
  }

  lemma CallTargeted()
    ensures Targeted(CALLS)
  {
    CallOffsets();
    assert Boundary(CATCHER, 7);
  }

  lemma CatcherAdmits(k: nat)
    requires k < |CATCHER|
    ensures AcceptsInstr(CallProgram(), CallProgram().methods[0], CATCHER, CALLBOUNDS[0], k)
  {
    hide Offset, Assemble;
    CallOffsets();
  }

  lemma ThrowerAdmits(k: nat)
    requires k < |THROWER|
    ensures AcceptsInstr(CallProgram(), CallProgram().methods[1], THROWER, CALLBOUNDS[1], k)
  {
    hide Offset, Assemble;
  }

  /** The verifier accepts a call whose callee throws into the caller's TRY. */
  lemma CallsAccepted()
    ensures Accepts(CallProgram(), CALLS, CALLBOUNDS)
  {
    hide Offset, Assemble, AcceptsInstr, Targeted;
    CallTargeted();
    forall k | 0 <= k < |CATCHER|
      ensures AcceptsInstr(CallProgram(), CallProgram().methods[0], CATCHER, CALLBOUNDS[0], k)
    {
      CatcherAdmits(k);
    }
    forall k | 0 <= k < |THROWER|
      ensures AcceptsInstr(CallProgram(), CallProgram().methods[1], THROWER, CALLBOUNDS[1], k)
    {
      ThrowerAdmits(k);
    }
  }

  /** The caller while its TRY is armed. */
  function Armed(pc: int): Frame {
    Frame(0, [], [Block(0, -1, 0, 7)], [None], NoError, Void, 0, pc)
  }

  const THROWN: Value := Data(7)
  const CHOICE := Choice(THROWN, false, false, 0, true, Found(1), NoError)

  lemma CallMethods()
    ensures CallProgram().methods == [CatchMethod(), ThrowMethod()]
  {
  }

  lemma CatcherFetch()
    ensures Fetch(Assemble(CATCHER), 0) == Some(Decoded(54, 1, MODE_IM, 0, 7, 0, 3))
    ensures Fetch(Assemble(CATCHER), 3) == Some(Decoded(43, 1, MODE_IM, 0, 0, 0, 6))
    ensures |Assemble(CATCHER)| == 9
  {
    hide Assemble, Fetch, Offset;
    CallOffsets();
    FetchAssembled(CATCHER, 0);
    FetchAssembled(CATCHER, 1);
  }

  lemma ThrowerFetch()
    ensures Fetch(Assemble(THROWER), 0) == Some(Decoded(2, 1, MODE_IM, 0, 1, 0, 3))
    ensures Fetch(Assemble(THROWER), 3) == Some(Decoded(55, 0, 0, 0, 0, 0, 4))
    ensures |Assemble(THROWER)| == 4
  {
    hide Assemble, Fetch, Offset;
    CallOffsets();
    FetchAssembled(THROWER, 0);
    FetchAssembled(THROWER, 1);
  }

  /** The caller before its TRY. */
  function Unarmed(): Frame {
    Frame(0, [], [Block(0, -1, 0, -1)], [None], NoError, Void, 0, 0)
  }

  lemma StartUnarmed()
    ensures Start(CallProgram(), 0) == State([], [Unarmed()], Running)
  {
    assert Args(0) == [];
  }

  lemma ArmedByTry()
    ensures WithCatch(Unarmed().(pc := 3), 7) == Armed(3)
  {
  }

  /** A step of the frame on top, its instruction known. */
  lemma StepOn(p: Program, st: seq<Value>, below: seq<Frame>, f: Frame, d: Decoded, c: Choice)
    requires f.meth < |p.methods| && f.err == NoError && f.pc < |p.methods[f.meth].code|
    requires Fetch(p.methods[f.meth].code, f.pc) == Some(d) && WellShaped(d)
    ensures var s := State(st, below + [f], Running);
            var a := State(st, below + [f.(pc := d.next)], Running);
            Step(p, s, c) ==
              if !IsCall(ActionOf(d.op)) then ExecuteLocal(a, d, c)
              else if CallSite(MethodOf(p, f), d).None? then s.(mode := Fault(BadConstant))
              else EnterCall(p, a, d, c)
  {
    hide Fetch, ExecuteLocal, EnterCall;
    var s := State(st, below + [f], Running);
    assert s.frames[..|below|] == below;
    assert Current(p, s) == Some(d);
  }

  lemma TryExecutes()
    ensures var f := Unarmed().(pc := 3);
            Execute(Decoded(54, 1, MODE_IM, 0, 7, 0, 3), [], f, CHOICE) == Local([], WithCatch(f, 7))
  {
    hide WithCatch;
  }

  lemma TryStep()
    ensures Step(CallProgram(), State([], [Unarmed()], Running), CHOICE) == State([], [Armed(3)], Running)
  {
    hide Assemble, Fetch, CallProgram, Step, WithCatch, Execute;
    CallMethods();
    CatcherFetch();
    TryExecutes();
    ArmedByTry();
    assert [] + [Unarmed()] == [Unarmed()];
    StepOn(CallProgram(), [], [], Unarmed(), Decoded(54, 1, MODE_IM, 0, 7, 0, 3), CHOICE);
    assert [] + [Armed(3)] == [Armed(3)];
  }

  lemma CallStep()
    ensures Step(CallProgram(), State([], [Armed(3)], Running), CHOICE)
         == State([], [Armed(6), NewFrame(1, 0, 0)], Running)
  {
    hide Assemble, Fetch, CallProgram, Step;
    CallMethods();
    CatcherFetch();
    assert [] + [Armed(3)] == [Armed(3)];
    StepOn(CallProgram(), [], [], Armed(3), Decoded(43, 1, MODE_IM, 0, 0, 0, 6), CHOICE);
    assert [] + [Armed(6)] == [Armed(6)];
  }

  lemma PushStep()
    ensures Step(CallProgram(), State([], [Armed(6), NewFrame(1, 0, 0)], Running), CHOICE)
         == State([THROWN], [Armed(6), NewFrame(1, 0, 0).(pc := 3)], Running)
  {
    hide Assemble, Fetch, CallProgram, Step, NewFrame;
    CallMethods();
    ThrowerFetch();
    NewThrower();
    var f := NewFrame(1, 0, 0);
    assert [Armed(6)] + [f] == [Armed(6), f];
    StepOn(CallProgram(), [], [Armed(6)], f, Decoded(2, 1, MODE_IM, 0, 1, 0, 3), CHOICE);
    assert [Armed(6), f.(pc := 3)][..1] == [Armed(6)];
  }

  lemma NewThrower()
    ensures NewFrame(1, 0, 0) == Frame(1, [], [Block(0, -1, 0, -1)], [None], NoError, Void, 0, 0)
  {
    assert Args(0) == [];
  }

  lemma RaiseStep()
    ensures Step(CallProgram(), State([THROWN], [Armed(6), NewFrame(1, 0, 0).(pc := 3)], Running), CHOICE)
         == State([THROWN], [Armed(6), Frame(1, [], [], [], Exception, THROWN, 0, -1)], Running)
  {
    hide Assemble, Fetch, CallProgram, Step, NewFrame;
    CallMethods();
    ThrowerFetch();
    NewThrower();
    var f := NewFrame(1, 0, 0).(pc := 3);
    assert [Armed(6)] + [f] == [Armed(6), f];
    StepOn(CallProgram(), [THROWN], [Armed(6)], f, Decoded(55, 0, 0, 0, 0, 0, 4), CHOICE);
    assert [Armed(6), f.(pc := 4)][..1] == [Armed(6)];
  }

  lemma ExitStep()
    ensures Step(CallProgram(), State([THROWN], [Armed(6), Frame(1, [], [], [], Exception, THROWN, 0, -1)], Running),
              CHOICE)
         == State([THROWN], [Armed(6)], Returning(Exception))
  {
    hide Assemble, Fetch, CallProgram;
    CallMethods();
  }

  lemma CatchStep()
    ensures Step(CallProgram(), State([THROWN], [Armed(6)], Returning(Exception)), CHOICE)
         == State([THROWN], [Armed(7)], Running)
  {
    hide Assemble, Fetch, CallProgram;
    CallMethods();
  }

  /** Six steps take the accepted program from its start through the call and the
      throw to the caller's catch target, the thrown value on top. */
  lemma CaughtAcrossFrames()
    ensures Exec(CallProgram(), Start(CallProgram(), 0), seq(6, _ => CHOICE)) == State([THROWN], [Armed(7)], Running)
  {
    hide Step, Start, Exec, Assemble;
    var p, cs, s0 := CallProgram(), seq(6, _ => CHOICE), State([], [Unarmed()], Running);
    StartUnarmed();
    ExecNone(p, s0);
    assert cs[..0] == [] && cs[..6] == cs;
    TryStep();
    CallStep();
    PushStep();
    RaiseStep();
    ExitStep();
    CatchStep();
    ExecNext(p, s0, cs, 0);
    ExecNext(p, s0, cs, 1);
    ExecNext(p, s0, cs, 2);
    ExecNext(p, s0, cs, 3);
    ExecNext(p, s0, cs, 4);
    ExecNext(p, s0, cs, 5);
  }
}
