/**
  Control-flow integrity.  The machine fetches words; nothing in it checks that a
  jump, break, continue or catch lands on the first word of an instruction.  For
  assembled code whose immediate targets are instruction boundaries, and whose
  SETBREAK targets directly follow a JMP, every pc the machine reaches is one.
 */
module VmControl {

  import opened Common
  import opened VmCode
  import opened VmMachine
  import opened VmFrames

  /** The instructions each method was assembled from, method by method. */
  type Listing = seq<seq<Instr>>

  predicate Assembled(p: Program, l: Listing) {
    && |l| == |p.methods|
    && forall m :: 0 <= m < |l| ==> WellFormedBody(l[m]) && p.methods[m].code == Assemble(l[m])
  }

  /** The first word of an instruction, or the end of the code. */
  ghost predicate Boundary(body: seq<Instr>, pc: int) {
    exists k :: 0 <= k <= |body| && Offset(body, k) == pc
  }

  /** A boundary directly after a JMP. */
  ghost predicate AfterJump(body: seq<Instr>, pc: int) {
    exists k :: 0 < k <= |body| && Offset(body, k) == pc && body[k - 1].op == OP_JMP
  }

  ghost predicate TargetOk(body: seq<Instr>, i: Instr) {
    match ActionOf(i.op)
    case Jump => i.mode == MODE_IM && Boundary(body, Arg1(i))
    case CondJump => i.mode == MODE_IM && Boundary(body, Arg1(i))
    case SetBreak => i.mode == MODE_IM && (Arg1(i) == -1 || AfterJump(body, Arg1(i)))
    case Try => i.mode == MODE_IM && (Arg1(i) == -1 || Boundary(body, Arg1(i)))
    case _ => true
  }

  ghost predicate Targeted(l: Listing) {
    forall m, k :: 0 <= m < |l| && 0 <= k < |l[m]| ==> TargetOk(l[m], l[m][k])
  }

  // ---------------------------------------------------------------- the invariant

  ghost predicate BlockTargets(body: seq<Instr>, blocks: seq<Block>) {
    forall j :: 0 <= j < |blocks| ==>
      && (blocks[j].breakpc == -1 || AfterJump(body, blocks[j].breakpc))
      && (blocks[j].catchpc == -1 || Boundary(body, blocks[j].catchpc))
  }

  /** A frame that can still run is at a boundary, and so is everything it may
      break, continue or unwind to. */
  ghost predicate FrameControl(body: seq<Instr>, f: Frame) {
    BlockTargets(body, f.blocks) && (f.err == NoError ==> Boundary(body, f.pc))
  }

  ghost predicate Controlled(p: Program, l: Listing, s: State)
    requires Assembled(p, l)
  {
    && Shape(p, s)
    && (forall i :: 0 <= i < |s.frames| ==> FrameControl(l[s.frames[i].meth], s.frames[i]))
    && (s.mode.Fault? ==> s.mode.kind !in {BadFetch, Malformed, Diverges})
  }

  // ---------------------------------------------------------------- steps

  lemma TopControl(p: Program, l: Listing, s: State)
    requires Assembled(p, l) && Controlled(p, l, s) && s.frames != []
    ensures Top(s).meth < |l| && FrameShape(p, Top(s)) && FrameControl(l[Top(s).meth], Top(s))
  {
  }

  /** Instruction k is a JMP of three words, the last of them right before t. */
  predicate JumpEndingAt(body: seq<Instr>, k: int, t: int) {
    0 <= k < |body| && body[k].op == OP_JMP && Offset(body, k) == t - 3 && Offset(body, k + 1) == t
  }

  lemma JumpBefore(body: seq<Instr>, t: int)
    requires WellFormedBody(body) && AfterJump(body, t)
    ensures Boundary(body, t)
    ensures exists k :: JumpEndingAt(body, k, t)
    ensures Boundary(body, t - 3)
  {
    var k :| 0 < k <= |body| && Offset(body, k) == t && body[k - 1].op == OP_JMP;
    assert WellFormed(body[k - 1]) && Size(|body[k - 1].args|) == 3;
    assert Offset(body, k - 1) == t - 3;
    assert JumpEndingAt(body, k - 1, t);
  }

  /** At a boundary short of the end, the fetch yields the listed instruction. */
  lemma FetchAtBoundary(p: Program, l: Listing, s: State) returns (k: nat)
    requires Assembled(p, l) && Controlled(p, l, s) && HasCode(p, s) && !Exits(p, s)
    ensures var body := l[Top(s).meth];
            k < |body| && Offset(body, k) == Top(s).pc && Current(p, s) == Some(DecodedOf(body, k))
    ensures Executes(p, s)
  {
    hide Offset, FrameShape, BlockTargets;
    var body := l[Top(s).meth];
    assert FrameControl(body, Top(s));
    k :| 0 <= k <= |body| && Offset(body, k) == Top(s).pc;
    assert k < |body|;
    FetchAssembled(body, k);
    assert WellFormed(body[k]);
  }

  /** What one instruction leaves behind in its own frame. */
  ghost predicate LocalControl(body: seq<Instr>, r: Local) {
    r.Local? ==> FrameControl(body, r.frame)
  }

  lemma GetCatchControl(p: Program, body: seq<Instr>, f: Frame)
    requires FrameShape(p, f) && BlockTargets(body, f.blocks)
    ensures BlockTargets(body, GetCatch(f).0.blocks)
    ensures GetCatch(f).1 == -1 || Boundary(body, GetCatch(f).1)
  {
    GetCatchFinds(p, f);
  }

  lemma ExecThrowControl(p: Program, body: seq<Instr>, st: seq<Value>, f: Frame, c: Choice)
    requires FrameShape(p, f) && BlockTargets(body, f.blocks)
    ensures LocalControl(body, ExecThrow(st, f, c))
  {
    GetCatchControl(p, body, f);
  }

  lemma ExecBlockControl(p: Program, body: seq<Instr>, k: nat, st: seq<Value>, f: Frame, c: Choice)
    requires WellFormedBody(body) && k < |body| && TargetOk(body, body[k])
    requires FrameShape(p, f) && FrameControl(body, f)
    ensures LocalControl(body, ExecBlock(DecodedOf(body, k), st, f, c))
  {
    hide AfterJump, Boundary, Offset, FrameShape;
    var t := GetBreak(f);
    if t != -1 {
      JumpBefore(body, t);
    }
  }

  lemma ExecOperandControl(p: Program, body: seq<Instr>, k: nat, st: seq<Value>, f: Frame, c: Choice)
    requires k < |body| && TargetOk(body, body[k]) && FrameControl(body, f)
    requires Needs(ActionOf(body[k].op)) <= |st|
    ensures LocalControl(body, ExecOperand(DecodedOf(body, k), st, f, c))
  {
    hide AfterJump, Boundary, Offset;
  }

  lemma ExecuteControl(p: Program, body: seq<Instr>, k: nat, st: seq<Value>, f: Frame, c: Choice)
    requires WellFormedBody(body) && k < |body| && TargetOk(body, body[k])
    requires !IsCall(ActionOf(body[k].op)) && FrameShape(p, f) && FrameControl(body, f)
    ensures LocalControl(body, Execute(DecodedOf(body, k), st, f, c))
  {
    hide ExecThrow, ExecBlock, ExecOperand, FrameControl, FrameShape;
    var a := ActionOf(body[k].op);
    if a.Throw? {
      assert BlockTargets(body, f.blocks) by { ControlTargets(body, f); }
      ExecThrowControl(p, body, st, f, c);
    } else if Needs(a) <= |st| {
      ExecBlockControl(p, body, k, st, f, c);
      ExecOperandControl(p, body, k, st, f, c);
    }
  }

  lemma ControlTargets(body: seq<Instr>, f: Frame)
    requires FrameControl(body, f)
    ensures BlockTargets(body, f.blocks)
  {
  }

  lemma DeliverControl(p: Program, l: Listing, s: State)
    requires Assembled(p, l) && Controlled(p, l, s) && s.mode.Returning? && s.frames != []
    ensures Controlled(p, l, Deliver(s, s.mode.err))
  {
    hide AfterJump, Boundary, FrameShape;
    DeliverShape(p, s, s.mode.err);
    TopControl(p, l, s);
    GetCatchShape(p, Top(s));
    GetCatchControl(p, l[Top(s).meth], Top(s));
  }

  lemma ExitControl(p: Program, l: Listing, s: State)
    requires Assembled(p, l) && Controlled(p, l, s) && HasCode(p, s) && Exits(p, s)
    ensures Controlled(p, l, ExitFrame(p, s))
  {
    hide FrameControl, FrameShape;
  }

  lemma NextBoundary(body: seq<Instr>, k: nat)
    requires k < |body|
    ensures Boundary(body, Offset(body, k + 1)) && Boundary(body, 0)
  {
    assert Offset(body, 0) == 0;
  }

  lemma AdvancedControl(p: Program, l: Listing, s: State, k: nat)
    requires Assembled(p, l) && Controlled(p, l, s) && Executes(p, s)
    requires k < |l[Top(s).meth]| && Current(p, s) == Some(DecodedOf(l[Top(s).meth], k))
    ensures Controlled(p, l, Advanced(p, s))
  {
    hide FrameShape, Boundary, AfterJump, Current;
    AdvancedShape(p, s);
    NextBoundary(l[Top(s).meth], k);
    assert FrameControl(l[Top(s).meth], Top(s));
  }

  lemma ExecuteLocalControl(p: Program, l: Listing, s: State, k: nat, c: Choice)
    requires Assembled(p, l) && Targeted(l) && Controlled(p, l, s) && s.mode.Running?
    requires k < |l[Top(s).meth]| && !IsCall(ActionOf(l[Top(s).meth][k].op))
    ensures Controlled(p, l, ExecuteLocal(s, DecodedOf(l[Top(s).meth], k), c))
  {
    hide FrameControl, FrameShape, Execute;
    TopControl(p, l, s);
    var body := l[Top(s).meth];
    var d := DecodedOf(body, k);
    ExecuteControl(p, body, k, s.stack, Top(s), c);
    ExecuteShape(p, d, s.stack, Top(s), c);
    ExecuteLocalShape(p, s, d, c);
  }

  lemma EnterCallControl(p: Program, l: Listing, s: State, d: Decoded, c: Choice)
    requires Assembled(p, l) && Controlled(p, l, s) && s.mode.Running? && Top(s).err == NoError
    ensures Controlled(p, l, EnterCall(p, s, d, c))
  {
    hide FrameShape, Boundary, AfterJump;
    EnterCallShape(p, s, d, c);
    if c.callee.Found? && c.callee.m < |p.methods| {
      StartBoundary(l[c.callee.m]);
    }
  }

  lemma StartBoundary(body: seq<Instr>)
    ensures Boundary(body, 0)
  {
    assert Offset(body, 0) == 0;
  }

  lemma StepControl(p: Program, l: Listing, s: State, c: Choice)
    requires Assembled(p, l) && Targeted(l) && Controlled(p, l, s)
    ensures Controlled(p, l, Step(p, s, c))
  {
    hide Controlled, Advanced, ExecuteLocal, EnterCall, ExitFrame, Deliver;
    if s.mode.Returning? && s.frames != [] {
      DeliverControl(p, l, s);
    } else if s.mode.Running? {
      RunningControl(p, l, s);
      TopControl(p, l, s);
      if Exits(p, s) {
        ExitControl(p, l, s);
      } else {
        ExecutesControl(p, l, s, c);
      }
    }
  }

  lemma RunningControl(p: Program, l: Listing, s: State)
    requires Assembled(p, l) && Controlled(p, l, s) && s.mode.Running?
    ensures s.frames != []
  {
  }

  lemma FaultControl(p: Program, l: Listing, s: State, kind: FaultKind)
    requires Assembled(p, l) && Controlled(p, l, s) && kind !in {BadFetch, Malformed, Diverges}
    ensures Controlled(p, l, s.(mode := Fault(kind)))
  {
  }

  lemma ExecutesControl(p: Program, l: Listing, s: State, c: Choice)
    requires Assembled(p, l) && Targeted(l) && Controlled(p, l, s) && HasCode(p, s) && !Exits(p, s)
    ensures Executes(p, s) && Controlled(p, l, Step(p, s, c))
  {
    hide Controlled, ExecuteLocal, EnterCall, Current;
    var k := FetchAtBoundary(p, l, s);
    AdvancedControl(p, l, s, k);
    if !IsCall(ActionOf(l[Top(s).meth][k].op)) {
      ExecuteLocalControl(p, l, Advanced(p, s), k, c);
    } else {
      EnterCallControl(p, l, Advanced(p, s), DecodedOf(l[Top(s).meth], k), c);
      FaultControl(p, l, s, BadConstant);
    }
  }

  lemma StartControl(p: Program, l: Listing, m: nat)
    requires Assembled(p, l) && m < |p.methods| && !p.methods[m].isnative
    ensures Controlled(p, l, Start(p, m))
  {
    StartShape(p, m);
    StartBoundary(l[m]);
  }

  lemma {:induction false} RunControl(p: Program, l: Listing, run: seq<State>, n: nat)
    requires Assembled(p, l) && Targeted(l)
    requires IsRun(p, run) && Controlled(p, l, run[0]) && n < |run|
    ensures Controlled(p, l, run[n])
  {
    hide Step, Enabled, Next, Controlled, Assembled, Targeted;
    if n > 0 {
      RunControl(p, l, run, n - 1);
      var c := StepOf(p, run, n - 1);
      StepControl(p, l, run[n - 1], c);
    }
  }

  /** Control-flow integrity, for every run of every method: the machine never
      fetches outside the code or a malformed instruction, every frame that has
      raised no error is at an instruction boundary or at the end of its code, and
      the loop in breakBlock always ends. */
  lemma ControlFlowIntegrity(p: Program, l: Listing, m: nat, run: seq<State>, n: nat)
    requires Assembled(p, l) && Targeted(l) && m < |p.methods| && !p.methods[m].isnative
    requires IsRun(p, run) && run[0] == Start(p, m) && n < |run|
    ensures run[n].mode.Fault? ==> run[n].mode.kind !in {BadFetch, Malformed, Diverges}
    ensures forall i :: 0 <= i < |run[n].frames| && run[n].frames[i].err == NoError ==>
              run[n].frames[i].meth < |l| && Boundary(l[run[n].frames[i].meth], run[n].frames[i].pc)
  {
    hide IsRun, Boundary, Targeted, BlockTargets;
    StartControl(p, l, m);
    RunControl(p, l, run, n);
  }

  lemma ContinueStep(p: Program, s: State, c: Choice)
    requires Executes(p, s) && ActionOf(Current(p, s).value.op).Continue?
    requires Step(p, s, c).mode.Running? && Top(Step(p, s, c)).err == NoError
    ensures GetBreak(Top(s)) != -1 && Top(Step(p, s, c)).pc == GetBreak(Top(s)) - 3
  {
    hide Current;
  }

  /** CONTINUE that raises no error lands on the first word of the JMP that ends
      at the break target. */
  lemma ContinueLandsOnJump(p: Program, l: Listing, s: State, c: Choice)
    requires Assembled(p, l) && Targeted(l) && Controlled(p, l, s)
    requires Executes(p, s) && ActionOf(Current(p, s).value.op).Continue?
    requires Step(p, s, c).mode.Running? && Top(Step(p, s, c)).err == NoError
    ensures var body, target := l[Top(s).meth], GetBreak(Top(s));
            Top(Step(p, s, c)).pc == target - 3 && exists k :: JumpEndingAt(body, k, target)
  {
    hide Shape, Offset, Boundary, AfterJump, Current, Step, JumpEndingAt;
    ContinueStep(p, s, c);
    assert FrameControl(l[Top(s).meth], Top(s));
    JumpBefore(l[Top(s).meth], GetBreak(Top(s)));
  }
}
