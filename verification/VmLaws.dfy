/**
  What the instructions do, by opcode number and without their handlers: the
  documented effect on the operand stack, the blocks that ENTER opens and LEAVE
  closes, jumps, calls, and the value or error that a call brings back.
 */
module VmLaws {

  import opened Common
  import opened VmCode
  import opened VmMachine
  import opened VmFrames
  import opened VmCalls
  import opened VmRuns

  const ENTER := 38
  const LEAVE := 39
  const CALL := 40
  const BASECALL := 42
  const SCALL := 43
  const VRET := 44
  const RET := 45
  const JMPZ := 48
  const JMPNZ := 49
  const JMP := 50
  const BREAK := 51
  const SETBREAK := 52
  const CONTINUE := 53
  const TRY := 54
  const THROW := 55

  /** The next step executes opcode op. */
  predicate Runs(p: Program, s: State, op: nat) {
    Executes(p, s) && Current(p, s).value.op == op
  }

  function Argument(p: Program, s: State): int
    requires Executes(p, s)
  {
    Current(p, s).value.arg1
  }

  /** The instruction behind the current one. */
  function Following(p: Program, s: State): int
    requires Executes(p, s)
  {
    Current(p, s).value.next
  }

  /** Still running, in the same activation, with the frames under it as they were. */
  predicate Stays(s: State, t: State) {
    && s.frames != [] && t.frames != [] && t.mode.Running?
    && Callers(t) == Callers(s) && SameCall(Top(s), Top(t))
  }

  // ---------------------------------------------------------------- the operand stack

  /** What stands on the stack afterwards: the operand that was k-th from the top, or a
      value that was computed. */
  datatype Item = Kept(k: nat) | Computed

  /** Operands taken, and what is put in their place, from the bottom up. */
  datatype Effect = Effect(takes: nat, gives: seq<Item>)

  /** The effects opcodes.h lists; calls and THROW apart. */
  function Documented(op: nat): Option<Effect> {
    match op
    case 0 | 38 | 39 | 44 | 50 | 51 | 52 | 53 | 54 | 56 => Some(Effect(0, []))
    case 1 | 45 | 48 | 49 => Some(Effect(1, []))
    case 2 | 32 | 34 | 36 | 37 => Some(Effect(0, [Computed]))
    case 3 => Some(Effect(2, [Kept(0), Kept(1)]))
    case 4 => Some(Effect(3, [Kept(0), Kept(1), Kept(2)]))
    case 5 => Some(Effect(1, [Kept(0), Kept(0)]))
    case 6 | 7 | 9 | 10 | 11 | 16 | 17 | 18 | 19 | 20 => Some(Effect(2, [Computed]))
    case 23 | 24 | 25 | 26 | 27 | 28 | 29 | 30 => Some(Effect(2, [Computed]))
    case 8 | 12 | 13 | 14 | 15 | 21 | 22 | 33 | 35 => Some(Effect(1, [Computed]))
    case 31 => Some(Effect(2, []))
    case _ => None
  }

  predicate Realized(st: seq<Value>, st': seq<Value>, e: Effect) {
    && e.takes <= |st| && |st'| == |st| - e.takes + |e.gives|
    && st'[..|st| - e.takes] == st[..|st| - e.takes]
    && forall k :: 0 <= k < |e.gives| && e.gives[k].Kept? && e.gives[k].k < |st| ==>
         st'[|st| - e.takes + k] == st[|st| - 1 - e.gives[k].k]
  }

  /** A step that is no call runs a handler in the frame on top, its pc moved on. */
  lemma StepHandles(p: Program, s: State, c: Choice)
    requires Executes(p, s) && !IsCall(ActionOf(Current(p, s).value.op))
    ensures var d, t, f := Current(p, s).value, Step(p, s, c), Top(s).(pc := Following(p, s));
            match Execute(d, s.stack, f, c)
            case Bad(kind) => t == Advanced(p, s).(mode := Fault(kind))
            case Local(st, g) =>
              t == State(st, Callers(s) + [g], Running) && t.frames != [] && Callers(t) == Callers(s) && Top(t) == g
  {
    hide Execute, Fetch;
    assert Callers(Advanced(p, s)) == Callers(s);
  }

  lemma EffectOf(d: Decoded, st: seq<Value>, f: Frame, c: Choice)
    requires !IsCall(ActionOf(d.op)) && Documented(d.op).Some? && Execute(d, st, f, c).Local?
    requires Execute(d, st, f, c).frame.err in {NoError, Returned} && d.op !in {3, 4, 5}
    ensures Realized(st, Execute(d, st, f, c).stack, Documented(d.op).value)
  {
    hide Execute;
    if Documented(d.op).value == Effect(0, []) {
      EffectOfNone(d, st, f, c);
    } else {
      EffectOfValue(d, st, f, c);
    }
  }

  lemma EffectOfNone(d: Decoded, st: seq<Value>, f: Frame, c: Choice)
    requires Documented(d.op) == Some(Effect(0, [])) && Execute(d, st, f, c).Local?
    ensures Execute(d, st, f, c).stack == st
  {
    hide EnterBlock, LeaveBlock, WithBreak, WithCatch;
  }

  /** One value more, or one or two fewer. */
  lemma EffectOfValue(d: Decoded, st: seq<Value>, f: Frame, c: Choice)
    requires Documented(d.op).Some? && !IsCall(ActionOf(d.op)) && Execute(d, st, f, c).Local?
    requires Documented(d.op).value != Effect(0, []) && d.op !in {3, 4, 5}
    requires Execute(d, st, f, c).frame.err in {NoError, Returned}
    ensures Realized(st, Execute(d, st, f, c).stack, Documented(d.op).value)
  {
    hide LeaveBlock, Realized;
    EffectKinds(d.op);
    var n, e, r := |st|, Documented(d.op).value, Execute(d, st, f, c);
    if e.gives == [] {
      assert r.stack == st[..n - e.takes];
    } else {
      assert |r.stack| == n - e.takes + 1 && r.stack[..n - e.takes] == st[..n - e.takes];
    }
    RealizedPlain(st, r.stack, e);
  }

  lemma EffectKinds(op: nat)
    requires Documented(op).Some? && op !in {3, 4, 5} && Documented(op).value != Effect(0, [])
    ensures var e, a := Documented(op).value, ActionOf(op);
            && (e == Effect(1, []) <==> a.Pop? || a.ValueReturn? || a.CondJump?)
              && (e == Effect(0, [Computed]) <==> a.Push?)
            && (e == Effect(2, [Computed]) <==> a.Binary?) && (e == Effect(1, [Computed]) <==> a.Unary?)
            && (e == Effect(2, []) <==> a.Assign?)
            && (a.Pop? || a.ValueReturn? || a.CondJump? || a.Push? || a.Binary? || a.Unary? || a.Assign?)
  {
  }

  lemma RealizedPlain(st: seq<Value>, st': seq<Value>, e: Effect)
    requires e.takes <= |st| && |st'| == |st| - e.takes + |e.gives| && e.gives in {[], [Computed]}
    requires st'[..|st| - e.takes] == st[..|st| - e.takes]
    ensures Realized(st, st', e)
  {
  }

  lemma EffectOfShuffle(d: Decoded, st: seq<Value>, f: Frame, c: Choice)
    requires d.op in {3, 4, 5} && Execute(d, st, f, c).Local?
    ensures Realized(st, Execute(d, st, f, c).stack, Documented(d.op).value)
  {
    hide Realized, Execute;
    var n, st' := |st|, Execute(d, st, f, c).stack;
    ShuffledBy(d, st, f, c);
    if d.op == 3 {
      TwoTurned(st, st');
    } else if d.op == 4 {
      ThreeTurned(st, st');
    } else {
      OneDoubled(st, st');
    }
  }

  lemma TwoTurned(st: seq<Value>, st': seq<Value>)
    requires var n := |st|; n >= 2 && st' == st[..n - 2] + [st[n - 1], st[n - 2]]
    ensures Realized(st, st', Effect(2, [Kept(0), Kept(1)]))
  {
  }

  lemma ThreeTurned(st: seq<Value>, st': seq<Value>)
    requires var n := |st|; n >= 3 && st' == st[..n - 3] + [st[n - 1], st[n - 2], st[n - 3]]
    ensures Realized(st, st', Effect(3, [Kept(0), Kept(1), Kept(2)]))
  {
  }

  lemma OneDoubled(st: seq<Value>, st': seq<Value>)
    requires var n := |st|; n >= 1 && st' == st[..n - 1] + [st[n - 1], st[n - 1]]
    ensures Realized(st, st', Effect(1, [Kept(0), Kept(0)]))
  {
  }

  lemma ShuffledBy(d: Decoded, st: seq<Value>, f: Frame, c: Choice)
    requires d.op in {3, 4, 5} && Execute(d, st, f, c).Local?
    ensures var n, st' := |st|, Execute(d, st, f, c).stack;
            && (d.op == 3 ==> n >= 2 && st' == st[..n - 2] + [st[n - 1], st[n - 2]])
            && (d.op == 4 ==> n >= 3 && st' == st[..n - 3] + [st[n - 1], st[n - 2], st[n - 3]])
            && (d.op == 5 ==> n >= 1 && st' == st[..n - 1] + [st[n - 1], st[n - 1]])
  {
  }

  /** An instruction that raises no error has exactly the documented effect. */
  lemma StackEffect(p: Program, s: State, c: Choice)
    requires Executes(p, s) && Documented(Current(p, s).value.op).Some?
    requires var t := Step(p, s, c); t.mode.Running? && t.frames != [] && Top(t).err in {NoError, Returned}
    ensures Realized(s.stack, Step(p, s, c).stack, Documented(Current(p, s).value.op).value)
  {
    hide Fetch, Execute, Realized, Documented;
    var d, f := Current(p, s).value, Top(s).(pc := Following(p, s));
    DocumentedNoCall(d.op);
    StepHandles(p, s, c);
    if d.op in {3, 4, 5} {
      EffectOfShuffle(d, s.stack, f, c);
    } else {
      EffectOf(d, s.stack, f, c);
    }
  }

  lemma DocumentedNoCall(op: nat)
    requires Documented(op).Some?
    ensures !IsCall(ActionOf(op))
  {
  }

  lemma BlockKinds()
    ensures ActionOf(ENTER) == Enter && ActionOf(LEAVE) == Leave && ActionOf(TRY) == Try
    ensures ActionOf(BREAK) == Break && ActionOf(SETBREAK) == SetBreak && ActionOf(CONTINUE) == Continue
  {
  }

  lemma JumpKinds()
    ensures ActionOf(JMPZ) == ActionOf(JMPNZ) == CondJump && ActionOf(JMP) == Jump && ActionOf(THROW) == Throw
    ensures ActionOf(VRET) == VoidReturn && ActionOf(RET) == ValueReturn
  {
  }

  lemma CallKinds(op: nat)
    ensures ActionOf(op).Call? <==> op == CALL || op == BASECALL
    ensures ActionOf(op).StaticCall? <==> op == SCALL
  {
  }

  // ---------------------------------------------------------------- blocks

  function NonNegative(n: int): nat {
    if n < 0 then 0 else n
  }

  /** ENTER opens one block, with as many new locals as it says, the break target of the
      block around it, and no catch target. */
  lemma EnterOpens(p: Program, s: State, c: Choice)
    requires Runs(p, s, ENTER) && Top(s).err == NoError
    ensures var t, n := Step(p, s, c), |Top(s).blocks|;
            && Stays(s, t) && t.stack == s.stack && Top(t).err == NoError && Top(t).pc == Following(p, s)
            && |Top(t).blocks| == n + 1 && Top(t).blocks[..n] == Top(s).blocks
            && Top(t).blocks[n].localcount == Argument(p, s) && Top(t).blocks[n].catchpc == -1
            && Top(t).blocks[n].breakpc == (if n == 0 then -1 else Top(s).blocks[n - 1].breakpc)
            && |Top(t).locals| == |Top(s).locals| + NonNegative(Argument(p, s)) && Top(s).locals <= Top(t).locals
  {
    hide Step, Fetch, ActionOf;
    BlockKinds();
    StepHandles(p, s, c);
  }

  /** LEAVE closes the innermost block and removes its locals, and nothing else. */
  lemma LeaveCloses(p: Program, s: State, c: Choice)
    requires Runs(p, s, LEAVE) && FrameShape(p, Top(s)) && Top(s).blocks != []
    ensures var t, n := Step(p, s, c), |Top(s).blocks|;
            && Stays(s, t) && t.stack == s.stack && Top(t).err == NoError && Top(t).pc == Following(p, s)
            && Top(t).blocks == Top(s).blocks[..n - 1]
            && Top(t).locals == Layout(MethodOf(p, Top(s)).sig.argc, Top(s).blocks[..n - 1])
            && |Top(t).locals| == |Top(s).locals| - NonNegative(Top(s).blocks[n - 1].localcount)
  {
    hide Step, Fetch, CacheAgrees, ActionOf;
    BlockKinds();
    StepHandles(p, s, c);
    assert Top(s).locals == Layout(MethodOf(p, Top(s)).sig.argc, Top(s).blocks);
  }

  /** An instruction leaves the blocks around the innermost one alone. */
  lemma ExecuteKeepsOuter(p: Program, d: Decoded, st: seq<Value>, f: Frame, c: Choice, k: nat)
    requires FrameShape(p, f) && !IsCall(ActionOf(d.op)) && k < |f.blocks|
    ensures var r := Execute(d, st, f, c);
            r.Local? && k <= |r.frame.blocks| ==> r.frame.blocks[..k] == f.blocks[..k]
  {
    hide Layout, CacheAgrees;
    GetCatchFinds(p, f);
  }

  /** So does a step, in every frame that is still there. */
  lemma StepKeepsOuter(p: Program, s: State, c: Choice, n: nat, k: nat)
    requires Shape(p, s) && n < |s.frames| && n < |Step(p, s, c).frames|
    requires k < |s.frames[n].blocks| && k <= |Step(p, s, c).frames[n].blocks|
    ensures Step(p, s, c).frames[n].blocks[..k] == s.frames[n].blocks[..k]
    ensures SameCall(s.frames[n], Step(p, s, c).frames[n])
  {
    hide FrameShape, Fetch, Execute, GetCatch;
    assert FrameShape(p, s.frames[n]);
    if s.mode.Returning? && s.frames != [] {
      DeliverKeepsOuter(p, s, n, k);
    } else if Executes(p, s) {
      var d := Current(p, s).value;
      if !IsCall(ActionOf(d.op)) && n == |s.frames| - 1 {
        StepHandles(p, s, c);
        AdvancedShape(p, s);
        ExecuteKeepsOuter(p, d, s.stack, Top(Advanced(p, s)), c, k);
        ExecuteShape(p, d, s.stack, Top(Advanced(p, s)), c);
      }
    }
  }

  lemma DeliverKeepsOuter(p: Program, s: State, n: nat, k: nat)
    requires Shape(p, s) && s.mode.Returning? && n < |s.frames|
    requires k < |s.frames[n].blocks| && k <= |Deliver(s, s.mode.err).frames[n].blocks|
    ensures Deliver(s, s.mode.err).frames[n].blocks[..k] == s.frames[n].blocks[..k]
    ensures SameCall(s.frames[n], Deliver(s, s.mode.err).frames[n])
  {
    hide Layout, CacheAgrees;
    assert FrameShape(p, Top(s));
    GetCatchFinds(p, Top(s));
  }

  /** Blocks under the k-th stay as long as the frame is there and keeps more than k. */
  lemma {:induction false} OuterStay(p: Program, run: seq<State>, n: nat, k: nat, i: nat)
    requires IsRun(p, run) && Shape(p, run[0]) && i < |run|
    requires forall j :: 0 <= j <= i ==> n < |run[j].frames|
    requires k <= |run[i].frames[n].blocks|
    requires forall j :: 0 <= j < i ==> k < |run[j].frames[n].blocks|
    ensures run[i].frames[n].blocks[..k] == run[0].frames[n].blocks[..k] && SameCall(run[0].frames[n], run[i].frames[n])
  {
    hide Step, Enabled, Next, Shape;
    if i > 0 {
      OuterStay(p, run, n, k, i - 1);
      RunShape(p, run, i - 1);
      var c := StepOf(p, run, i - 1);
      StepKeepsOuter(p, run[i - 1], c, n, k);
    }
  }

  /** ENTER and the LEAVE that matches it: whatever runs between them, calls and caught
      exceptions included, the frame has its blocks and its locals back. */
  lemma BlockRestores(p: Program, run: seq<State>, i: nat)
    requires IsRun(p, run) && Shape(p, run[0]) && 1 <= i < |run| - 1
    requires Runs(p, run[0], ENTER) && Runs(p, run[i], LEAVE) && |run[i].frames| == |run[0].frames|
    requires var n, k := |run[0].frames| - 1, |run[0].frames[|run[0].frames| - 1].blocks|;
             && (forall j :: 1 <= j <= i ==> n < |run[j].frames| && k < |run[j].frames[n].blocks|)
             && |run[i].frames[n].blocks| == k + 1
    ensures var f, g := Top(run[0]), Top(run[i + 1]);
            && Stays(run[i], run[i + 1]) && SameCall(f, g)
            && g.blocks == f.blocks && g.locals == f.locals
  {
    hide Step, Enabled, Next, Layout, CacheAgrees, Fetch;
    var n, k := |run[0].frames| - 1, |Top(run[0]).blocks|;
    var c0 := StepOf(p, run, 0);
    EnterOpens(p, run[0], c0);
    RunShape(p, run, 1);
    TailRun(p, run, 1);
    OuterStay(p, run[1..], n, k, i - 1);
    RunShape(p, run, i);
    assert FrameShape(p, Top(run[i])) && FrameShape(p, Top(run[0]));
    var c := StepOf(p, run, i);
    LeaveCloses(p, run[i], c);
    assert run[i].frames[n].blocks[..k] == run[1].frames[n].blocks[..k] == Top(run[0]).blocks;
  }

  /** SETBREAK gives the innermost block a break target of its own. */
  lemma SetBreakSets(p: Program, s: State, c: Choice)
    requires Runs(p, s, SETBREAK) && Current(p, s).value.mode == MODE_IM && Top(s).blocks != []
    ensures var t, n := Step(p, s, c), |Top(s).blocks| - 1;
            && Stays(s, t) && t.stack == s.stack && Top(t).err == NoError && Top(t).pc == Following(p, s)
            && Top(t).locals == Top(s).locals && |Top(t).blocks| == n + 1 && Top(t).blocks[..n] == Top(s).blocks[..n]
            && Top(t).blocks[n].breakpc == Argument(p, s) && Top(t).blocks[n].blockcount == n + 1
            && Top(t).blocks[n].catchpc == Top(s).blocks[n].catchpc
            && Top(t).blocks[n].localcount == Top(s).blocks[n].localcount
  {
    hide Step, Fetch, ActionOf;
    BlockKinds();
    StepHandles(p, s, c);
  }

  /** TRY arms the innermost block. */
  lemma TryArms(p: Program, s: State, c: Choice)
    requires Runs(p, s, TRY) && Current(p, s).value.mode == MODE_IM && Top(s).blocks != []
    ensures var t, n := Step(p, s, c), |Top(s).blocks| - 1;
            && Stays(s, t) && t.stack == s.stack && Top(t).err == NoError && Top(t).pc == Following(p, s)
            && Top(t).locals == Top(s).locals && |Top(t).blocks| == n + 1 && Top(t).blocks[..n] == Top(s).blocks[..n]
            && Top(t).blocks[n].catchpc == Argument(p, s) && Top(t).blocks[n].breakpc == Top(s).blocks[n].breakpc
            && Top(t).blocks[n].blockcount == Top(s).blocks[n].blockcount
            && Top(t).blocks[n].localcount == Top(s).blocks[n].localcount
  {
    hide Step, Fetch, ActionOf;
    BlockKinds();
    StepHandles(p, s, c);
  }

  // ---------------------------------------------------------------- jumps

  /** Nothing but pc and error of the frame on top is new. */
  predicate Moves(s: State, t: State) {
    Stays(s, t) && t.stack == s.stack && Top(t).blocks == Top(s).blocks && Top(t).locals == Top(s).locals
  }

  /** BREAK goes to the target of the nearest SETBREAK, CONTINUE three words before it;
      without one they fail, and no block is left either way. */
  lemma BreakJumps(p: Program, s: State, c: Choice)
    requires (Runs(p, s, BREAK) || Runs(p, s, CONTINUE)) && FrameShape(p, Top(s))
    ensures var t, target := Step(p, s, c), NearestBreak(Top(s).history, |Top(s).history|).0;
            && Moves(s, t)
            && (target != -1 && Runs(p, s, BREAK) ==> Top(t).err == NoError && Top(t).pc == target)
            && (target != -1 && Runs(p, s, CONTINUE) ==> Top(t).err == NoError && Top(t).pc == target - 3)
            && (target == -1 ==> Top(t).err == if Runs(p, s, BREAK) then BadBreak else BadContinue)
  {
    hide Step, Fetch, Layout, ActionOf;
    BlockKinds();
    StepHandles(p, s, c);
    BreakNeverUnwinds(p, Top(s));
  }

  /** JMP goes to its argument. */
  lemma JumpGoes(p: Program, s: State, c: Choice)
    requires Runs(p, s, JMP) && Current(p, s).value.mode == MODE_IM
    ensures var t := Step(p, s, c); Moves(s, t) && Top(t).err == NoError && Top(t).pc == Argument(p, s)
  {
    hide Step, Fetch, ActionOf;
    JumpKinds();
    StepHandles(p, s, c);
  }

  /** JMPZ and JMPNZ take the condition off the stack and go to their argument or on. */
  lemma ConditionalJump(p: Program, s: State, c: Choice)
    requires Runs(p, s, JMPZ) || Runs(p, s, JMPNZ)
    requires Current(p, s).value.mode == MODE_IM && s.stack != []
    ensures var t := Step(p, s, c);
            && Stays(s, t) && Top(t).blocks == Top(s).blocks && Top(t).locals == Top(s).locals
            && if c.fails then Top(t).err == TypeMismatch && t.stack == s.stack
               else
                 && Top(t).err == NoError && t.stack == s.stack[..|s.stack| - 1]
                 && Top(t).pc == if c.taken then Argument(p, s) else Following(p, s)
  {
    hide Step, Fetch, ActionOf;
    JumpKinds();
    StepHandles(p, s, c);
  }

  // ---------------------------------------------------------------- calls

  predicate RunsCall(p: Program, s: State) {
    Runs(p, s, CALL) || Runs(p, s, BASECALL) || Runs(p, s, SCALL)
  }

  /** The caller waits behind its call. */
  predicate Waits(p: Program, s: State, frames: seq<Frame>)
    requires Executes(p, s)
  {
    frames == Callers(s) + [Top(s).(pc := Following(p, s))]
  }

  /** A call that enters bytecode enters a method with the signature that the constant
      names, at its first instruction, inside one block, its arguments in order as its
      locals and off the operand stack. */
  lemma CallEnters(p: Program, s: State, c: Choice)
    requires RunsCall(p, s) && Enabled(p, s, c) && |Step(p, s, c).frames| > |s.frames|
    ensures var t, sigs := Step(p, s, c), MethodOf(p, Top(s)).consts;
            && t.mode == Running && |t.frames| == |s.frames| + 1 && Waits(p, s, Callers(t))
            && 0 <= Argument(p, s) < |sigs| && Top(t).meth < |p.methods|
            && var m, f := p.methods[Top(t).meth], Top(t);
               && Resolves(sigs[Argument(p, s)], m) && !m.isnative && m.sig.argc <= |s.stack|
               && t.stack == s.stack[..|s.stack| - m.sig.argc] && f.stackcount == |s.stack|
               && f.pc == 0 && f.err == NoError && f.retval == Void && f.blocks == [Block(0, -1, 0, -1)]
               && |f.locals| == m.sig.argc && forall k :: 0 <= k < m.sig.argc ==> f.locals[k] == ArgSlot(k)
  {
    hide Step, Fetch, ActionOf, Resolves;
    CallKinds(Current(p, s).value.op);
    CallSteps(p, s, c);
  }

  /** The state a call leads to. */
  lemma CallSteps(p: Program, s: State, c: Choice)
    requires Executes(p, s) && IsCall(ActionOf(Current(p, s).value.op))
    ensures var d, a := Current(p, s).value, Advanced(p, s);
            && Waits(p, s, a.frames)
            && Step(p, s, c) ==
                 if CallSite(MethodOf(p, Top(s)), d).None? then s.(mode := Fault(BadConstant))
                   else EnterCall(p, a, d, c)
  {
    hide Fetch, EnterCall;
  }

  /** A call that returns at once leaves the frames alone.  A native method has taken its
      arguments and left its value, if it has one; a method that is not found has taken
      nothing, but for the `this` of an instance. */
  lemma CallReturnsAtOnce(p: Program, s: State, c: Choice)
    requires RunsCall(p, s) && Enabled(p, s, c)
    requires var t := Step(p, s, c); !t.mode.Fault? && |t.frames| <= |s.frames|
    ensures var t := Step(p, s, c);
            && t.mode.Returning? && Waits(p, s, t.frames)
            && match c.callee
               case NoClass => t.mode.err == MainClassNotFound && t.stack == s.stack
               case NoMethod =>
                 && t.mode.err == UnknownMethod
                 && t.stack == if !Runs(p, s, SCALL) && c.inst then s.stack[..|s.stack| - 1] else s.stack
               case Found(k) =>
                 && k < |p.methods| && p.methods[k].isnative && p.methods[k].sig.argc <= |s.stack|
                 && t.mode.err == c.native
                 && t.stack == s.stack[..|s.stack| - p.methods[k].sig.argc]
                      + if p.methods[k].hasretval then [c.value] else []
  {
    hide Step, Fetch, ActionOf, Resolves;
    CallKinds(Current(p, s).value.op);
    CallSteps(p, s, c);
  }

  // ---------------------------------------------------------------- returns

  /** RET of a value that is not a pointer. */
  predicate Answers(p: Program, s: State, v: Value) {
    Runs(p, s, RET) && s.stack != [] && s.stack[|s.stack| - 1] == v && !v.Pointer?
  }

  /** RET keeps the value it takes off the stack for the caller. */
  lemma RetKeepsValue(p: Program, s: State, v: Value, c: Choice)
    requires Answers(p, s, v)
    ensures var t := Step(p, s, c);
            && Stays(s, t) && Top(t).retval == v && Top(t).err == Returned && t.stack == s.stack[..|s.stack| - 1]
  {
    hide Step, Fetch, ActionOf;
    JumpKinds();
    StepHandles(p, s, c);
  }

  lemma VretReturns(p: Program, s: State, c: Choice)
    requires Runs(p, s, VRET)
    ensures var t := Step(p, s, c); Moves(s, t) && Top(t).err == Returned
  {
    hide Step, Fetch, ActionOf;
    JumpKinds();
    StepHandles(p, s, c);
  }

  /** A frame that is done returns its error to what is under it; a return is no error. */
  lemma ExitReturns(p: Program, s: State, c: Choice)
    requires HasCode(p, s) && Exits(p, s)
    ensures var t := Step(p, s, c);
            && t.frames == Callers(s)
            && t.mode == Returning(if Top(s).err == Returned then NoError else Top(s).err)
  {
  }

  /** A call that returned no error lets the caller go on where it was. */
  lemma CallerGoesOn(p: Program, s: State, c: Choice)
    requires s.mode == Returning(NoError) && s.frames != [] && Top(s).err == NoError
    ensures Step(p, s, c) == s.(mode := Running)
  {
  }

  /** An error that is no exception is the caller's. */
  lemma CallerFails(p: Program, s: State, e: Err, c: Choice)
    requires s.mode == Returning(e) && s.frames != [] && e != Exception
    ensures Step(p, s, c) == State(s.stack, Callers(s) + [Top(s).(err := e)], Running)
  {
  }

  /** The caller of a failed call fails in turn. */
  lemma FailureSteps(p: Program, s: State, e: Err, c: Choice, d: Choice)
    requires Shape(p, s) && s.mode == Returning(e) && s.frames != [] && e !in {NoError, Exception, Returned}
    ensures var t := Step(p, Step(p, s, c), d); t.mode == Returning(e) && t.frames == Callers(s)
  {
    hide Step, FrameShape;
    CallerFails(p, s, e, c);
    var t := State(s.stack, Callers(s) + [Top(s).(err := e)], Running);
    assert Callers(t) == Callers(s);
    assert FrameShape(p, Top(s));
    FailedExits(p, s, t, e);
    ExitReturns(p, t, d);
  }

  lemma FailedExits(p: Program, s: State, t: State, e: Err)
    requires s.frames != [] && FrameShape(p, Top(s)) && e != NoError
    requires t == State(s.stack, Callers(s) + [Top(s).(err := e)], Running)
    ensures HasCode(p, t) && Exits(p, t) && Top(t).err == e
  {
  }

  /** Such an error ends the run: no frame handles it, and qinterpRun is given it. */
  lemma {:induction false} ErrorEndsRun(p: Program, run: seq<State>, e: Err)
    requires IsRun(p, run) && Shape(p, run[0]) && run[0].mode == Returning(e)
    requires e !in {NoError, Exception, Returned} && |run| == 2 * |run[0].frames| + 1
    ensures run[|run| - 1].mode == Returning(e) && run[|run| - 1].frames == []
    decreases |run|
  {
    hide Step, Enabled, Next, Shape;
    if run[0].frames != [] {
      var c := StepOf(p, run, 0);
      var d := StepOf(p, run, 1);
      FailureSteps(p, run[0], e, c, d);
      RunShape(p, run, 2);
      TailRun(p, run, 2);
      ErrorEndsRun(p, run[2..], e);
    }
  }

  /** The value a call brings back: a completed call whose callee ended with RET of v
      leaves v, if the method has a return value, in place of the arguments. */
  lemma CallBringsValue(p: Program, run: seq<State>, i: nat, v: Value)
    requires IsRun(p, run) && RunPopsWithin(p, run) && Sound(p, run[0])
    requires Executes(p, run[0]) && 2 < i < |run|
    requires |run[1].frames| == |run[0].frames| + 1 && |run[i].frames| <= |run[0].frames|
    requires forall k :: 1 <= k < i ==> |run[k].frames| > |run[0].frames|
    requires |run[i - 2].frames| == |run[0].frames| + 1 && Answers(p, run[i - 2], v)
    ensures var f := run[1].frames[|run[0].frames|];
            && run[i].mode == Returning(NoError) && f.meth < |p.methods|
            && MethodOf(p, f).sig.argc <= |run[0].stack|
            && run[i].stack == run[0].stack[..|run[0].stack| - MethodOf(p, f).sig.argc]
                 + if MethodOf(p, f).hasretval then [v] else []
  {
    hide Step, Enabled, Next, Shape, Heights, PopsWithin, ExitFrame, Advanced, Fetch;
    CallBalance(p, run, i);
    var c := StepOf(p, run, i - 2);
    RetKeepsValue(p, run[i - 2], v, c);
    var d := StepOf(p, run, i - 1);
    RunSound(p, run, i - 1);
    ShapedExit(p, run[i - 1]);
    ExitReturns(p, run[i - 1], d);
  }

  lemma ShapedExit(p: Program, s: State)
    requires Sound(p, s) && s.mode.Running? && s.frames != [] && Top(s).err != NoError
    ensures HasCode(p, s) && Exits(p, s)
  {
    TopReach(p, s);
  }

  /** The bottom frame of a run is the started method's, and its base is the empty stack. */
  lemma BottomFrame(p: Program, m: nat, run: seq<State>, i: nat)
    requires m < |p.methods| && !p.methods[m].isnative
    requires IsRun(p, run) && RunPopsWithin(p, run) && run[0] == Start(p, m)
    requires i < |run| && run[i].frames != []
    ensures Sound(p, run[i]) && run[i].frames[0].meth == m && Base(p, run[i].frames[0]) == 0
  {
    hide Enabled, Next, Shape, Heights, PopsWithin, Step;
    StartSound(p, m);
    forall k | 0 <= k <= i
      ensures |run[k].frames| > 0
    {
      FramesLast(p, run, k, i);
    }
    TopReach(p, run[0]);
    CalleeActive(p, run, i, 0, 0);
  }

  /** The started method's value is what qinterpRun hands out. */
  lemma RunAnswers(p: Program, m: nat, run: seq<State>, i: nat, v: Value)
    requires m < |p.methods| && !p.methods[m].isnative && p.methods[m].hasretval
    requires IsRun(p, run) && RunPopsWithin(p, run) && run[0] == Start(p, m) && i + 2 < |run|
    requires |run[i].frames| == 1 && Answers(p, run[i], v)
    ensures run[i + 2] == State([v], [], Returning(NoError))
    ensures FinishRun(run[i + 2]) == Outcome([], Some(v))
  {
    hide Step, Enabled, Next, Sound, PopsWithin, ExitFrame, Fetch, Start;
    var c := StepOf(p, run, i);
    var d := StepOf(p, run, i + 1);
    RetKeepsValue(p, run[i], v, c);
    BottomFrame(p, m, run, i + 1);
    ShapedExit(p, run[i + 1]);
    ExitReturns(p, run[i + 1], d);
    ExitDelivers(p, run[i + 1]);
    ExitIs(p, run[i + 1], d);
  }

  lemma ExitIs(p: Program, s: State, c: Choice)
    requires HasCode(p, s) && Exits(p, s)
    ensures Step(p, s, c) == ExitFrame(p, s)
  {
    hide ExitFrame;
  }

  /** THROW of a value that is not a pointer. */
  predicate Throws(p: Program, s: State, v: Value) {
    Runs(p, s, THROW) && s.stack != [] && s.stack[|s.stack| - 1] == v && !v.Pointer?
  }

  /** A thrown value that no frame catches is what qinterpRun hands out. */
  lemma RunThrows(p: Program, m: nat, run: seq<State>, i: nat, v: Value)
    requires m < |p.methods| && !p.methods[m].isnative
    requires IsRun(p, run) && RunPopsWithin(p, run) && run[0] == Start(p, m)
    requires i < |run| && Throws(p, run[i], v) && Catcher(run[i].frames) == 0
    requires i + ThrowSteps(run[i]) < |run|
    ensures var t := run[i + ThrowSteps(run[i])];
            t == State([v], [], Returning(Exception)) && FinishRun(t) == Outcome([], Some(v))
  {
    hide Step, Enabled, Next, Shape, Heights, PopsWithin, Fetch, Start, ActionOf, Resumed, LandingSteps;
    JumpKinds();
    BottomFrame(p, m, run, i);
    var n := ThrowSteps(run[i]);
    TailRun(p, run, i);
    var tail := run[i..i + n + 1];
    forall j | 0 <= j < n
      ensures Next(p, tail[j], tail[j + 1])
    {
      assert Next(p, run[i..][j], run[i..][j + 1]);
    }
    ThrowUnwinds(p, tail, v);
    LandsOutside(p, run[i], v);
  }

  lemma LandsOutside(p: Program, s: State, v: Value)
    requires Sound(p, s) && s.frames != [] && Catcher(s.frames) == 0 && Base(p, s.frames[0]) == 0
    ensures ThrowTarget(p, s, v) == State([v], [], Returning(Exception))
  {
    hide Shape, Heights, Resumed, Catcher, Handler, FrameShape;
    ShapesOf(p, s);
    assert s.frames == Callers(s) + [Top(s)];
    CatcherPasses(Callers(s), Top(s));
    assert Trim(s.stack, 0) == [] && [] + [v] == [v];
  }
}
