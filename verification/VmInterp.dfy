/**
  The machine in the form it has in memory: stack frames are objects, recycled
  through a cache, and every helper of interpinner.c updates them in place.  Each
  method is proved to implement the transition of VmMachine that models it.
 */
module VmInterp {

  import opened Common
  import opened VmCode
  import opened VmMachine
  import opened VmFrames
  import opened VmRuns

  /** A stackframe object.  A frame whose method lookup failed is left again at
      once, so its NULL method is an argument of LeaveFrame. */
  class StackFrame {
    var curmethod: nat
    var locals: seq<Slot>
    var blockframes: seq<Block>
    var err: Err
    var retval: Value
    var stackcount: nat
    var pc: int
    ghost var history: seq<Option<int>>

    constructor ()
      ensures IsClear()
    {
      curmethod, locals, blockframes, history := 0, [], [], [];
      err, retval, stackcount, pc := NoError, Void, 0, 0;
    }

    ghost function View(): Frame
      reads this
    {
      Frame(curmethod, locals, blockframes, history, err, retval, stackcount, pc)
    }

    /** enterBlock for no locals, and the argument slots. */
    method StartCall(k: nat, argc: nat)
      requires IsClear()
      modifies this
      ensures View() == old(View()).(meth := k, pc := 0, locals := Args(argc),
                                     blocks := [Block(0, -1, 0, -1)], history := [None])
    {
      curmethod := k;
      EnterBlock(0);
      var x := 0;
      while x < argc
        invariant 0 <= x <= argc && locals == Args(x)
        invariant View() == old(View()).(meth := k, locals := locals,
                                         blocks := [Block(0, -1, 0, -1)], history := [None])
      {
        locals := locals + [ArgSlot(x)];
        x := x + 1;
      }
      pc := 0;
    }

    method Reset(height: nat)
      requires IsClear()
      modifies this
      ensures View() == Frame(curmethod, [], [], [], NoError, Void, height, pc)
    {
      stackcount, retval, err := height, Void, NoError;
    }

    ghost predicate IsClear()
      reads this
    {
      locals == [] && blockframes == [] && history == []
    }

    function TopBlock(): Block
      requires blockframes != []
      reads this
    {
      blockframes[|blockframes| - 1]
    }

    method SetBreak(breakpc: int)
      requires blockframes != []
      modifies this
      ensures View() == WithBreak(old(View()), breakpc)
    {
      var top := |blockframes| - 1;
      blockframes := blockframes[top := blockframes[top].(blockcount := |blockframes|)];
      blockframes := blockframes[top := blockframes[top].(breakpc := breakpc)];
      history := DropLast(history, 1) + [Some(breakpc)];
    }

    method SetTry(catchpc: int)
      requires blockframes != []
      modifies this
      ensures View() == WithCatch(old(View()), catchpc)
    {
      var top := |blockframes| - 1;
      blockframes := blockframes[top := blockframes[top].(catchpc := catchpc)];
    }

    method EnterBlock(localcount: int)
      modifies this
      ensures View() == VmMachine.EnterBlock(old(View()), localcount)
    {
      var x := 0;
      var depth := |blockframes|;
      while x < localcount
        invariant 0 <= x <= if localcount < 0 then 0 else localcount
        invariant locals == old(locals) + Vars(x, depth)
        invariant View() == old(View()).(locals := locals)
      {
        locals := locals + [VarSlot(depth)];
        x := x + 1;
      }
      var breakpc := if blockframes == [] then -1 else TopBlock().breakpc;
      var blockcount := if blockframes == [] then 0 else TopBlock().blockcount;
      blockframes := blockframes + [Block(localcount, breakpc, blockcount, -1)];
      history := history + [None];
    }

    method LeaveBlock()
      modifies this
      ensures View() == VmMachine.LeaveBlock(old(View()))
    {
      var localcount := if blockframes == [] then 0 else TopBlock().localcount;
      var x := 0;
      while x < localcount
        invariant 0 <= x <= if localcount < 0 then 0 else localcount
        invariant locals == DropLast(old(locals), x)
        invariant View() == old(View()).(locals := locals)
      {
        locals := DropLast(locals, 1);
        x := x + 1;
      }
      if blockframes != [] {
        blockframes := DropLast(blockframes, 1);
        history := DropLast(history, 1);
      }
    }

    /** Unwinds to the innermost block with a catch target. */
    method GetCatch() returns (catchpc: int)
      modifies this
      ensures (View(), catchpc) == VmMachine.GetCatch(old(View()))
    {
      while blockframes != []
        invariant VmMachine.GetCatch(View()) == VmMachine.GetCatch(old(View()))
        decreases |blockframes|
      {
        if TopBlock().catchpc != -1 {
          return TopBlock().catchpc;
        }
        LeaveBlock();
      }
      catchpc := -1;
    }

    /** The loop of breakBlock runs while blockcount exceeds the number of blocks,
        which it never does: the cached depth is at most the current one. */
    method BreakBlock() returns (breakpc: int)
      requires GetBreakBlockCount(View()) <= |blockframes|
      ensures breakpc == GetBreak(View())
    {
      if blockframes == [] {
        return -1;
      }
      breakpc := TopBlock().breakpc;
      if TopBlock().blockcount > |blockframes| {
        assert false;
      }
    }

    /** The handlers that only touch block frames and the pc. */
    method RunBlock(d: Decoded, c: Choice, ghost st: seq<Value>)
      requires ExecBlock(d, st, View(), c).Local?
      modifies this
      ensures ExecBlock(d, st, old(View()), c) == Local(st, View())
    {
      match ActionOf(d.op)
      case Enter => EnterBlock(d.arg1);
      case Leave => LeaveBlock();
      case SetBreak => SetBreak(Address(d, c));
      case Try => SetTry(Address(d, c));
      case Break =>
        pc := BreakBlock();
        if pc == -1 {
          err := BadBreak;
        }
      case Continue =>
        var target := BreakBlock();
        if target == -1 {
          err := BadContinue;
        } else {
          pc := target - 3;
        }
      case _ =>
    }
  }

  ghost predicate Distinct(fs: seq<StackFrame>) {
    forall i, j :: 0 <= i < j < |fs| ==> fs[i] != fs[j]
  }

  lemma DistinctSnoc(fs: seq<StackFrame>, f: StackFrame)
    requires Distinct(fs) && f !in fs
    ensures Distinct(fs + [f])
  {
  }

  /** Step on a state that executes an instruction and does not fault. */
  lemma StepExecutes(p: Program, s: State, c: Choice)
    requires VmMachine.Executes(p, s) && !VmMachine.Step(p, s, c).mode.Fault?
    ensures var d, a := Current(p, s).value, Advanced(p, s);
            if IsCall(ActionOf(d.op)) then VmMachine.Step(p, s, c) == EnterCall(p, a, d, c)
            else
              var r := VmMachine.Execute(d, s.stack, Top(a), c);
              r.Local? && VmMachine.Step(p, s, c) == SetTop(a, r.frame).(stack := r.stack)
  {
    hide VmMachine.Execute, EnterCall, Fetch;
  }

  function Higher(a: nat, b: nat): nat { if a > b then a else b }

  /** The most frames active at any time during the step: a call whose class is
      found enters a frame, also when the method is native or unknown. */
  function Reached(p: Program, s: State, c: Choice): nat {
    |s.frames| + if Executes(p, s) && IsCall(ActionOf(Current(p, s).value.op)) && !c.callee.NoClass? then 1 else 0
  }

  /** The part of qinterp that execution changes. */
  class Interp {
    const prog: Program
    var stack: seq<Value>
    var frames: seq<StackFrame>
    var curframe: StackFrame?
    var stkframecache: seq<StackFrame>
    var mode: Mode
    ghost var view: seq<Frame>  // the contents of frames, object by object
    ghost var peak: nat         // the largest number of frames ever active

    ghost function Objects(): set<object>
      reads `frames, `stkframecache
    {
      (set f | f in frames) + (set f | f in stkframecache)
    }

    /** Active and cached frames are distinct objects, cached ones are empty, and
        curframe is the top active one. */
    ghost predicate Pool()
      reads `frames, `stkframecache, `curframe, `view, Objects()
    {
      && Distinct(frames) && Distinct(stkframecache)
      && (forall f :: f in stkframecache ==> f !in frames && f.IsClear())
      && curframe == (if frames == [] then null else frames[|frames| - 1])
      && |view| == |frames|
      && (forall i :: 0 <= i < |frames| ==> view[i] == frames[i].View())
    }

    /** Frame pool: besides, no frame object is ever lost or made in vain. */
    ghost predicate Valid()
      reads `frames, `stkframecache, `curframe, `view, `peak, Objects()
    {
      Pool() && |frames| + |stkframecache| == peak
    }

    ghost function State(): State
      reads `stack, `view, `mode
    {
      VmMachine.State(stack, view, mode)
    }

    constructor (p: Program, args: seq<Value>)
      ensures Valid() && fresh(Objects()) && prog == p
      ensures stack == args && frames == [] && view == [] && mode == Running && peak == 0
    {
      prog, stack, frames, curframe, stkframecache := p, args, [], null, [];
      mode, view, peak := Running, [], 0;
    }

    /** A frame from the cache if there is one, else a new one. */
    method TakeFrame() returns (sfp: StackFrame)
      requires Valid()
      modifies this`stkframecache
      ensures Pool() && sfp !in frames && sfp !in stkframecache && sfp.IsClear()
      ensures Objects() + {sfp} == old(Objects()) + {sfp} && (fresh(sfp) || sfp in old(stkframecache))
      ensures if old(stkframecache) == [] then stkframecache == [] else |stkframecache| == |old(stkframecache)| - 1
    {
      if stkframecache == [] {
        sfp := new StackFrame();
      } else {
        sfp := stkframecache[|stkframecache| - 1];
        stkframecache := stkframecache[..|stkframecache| - 1];
      }
    }

    /** Makes a clear frame the active one. */
    method Activate(sfp: StackFrame)
      requires Pool() && sfp !in frames && sfp !in stkframecache
      modifies this`frames, this`curframe, this`view, this`peak
      ensures Pool() && frames == old(frames) + [sfp] && curframe == sfp && Objects() == old(Objects()) + {sfp}
      ensures view == old(view) + [sfp.View()]
      ensures peak == Higher(old(peak), |frames|)
    {
      DistinctSnoc(frames, sfp);
      frames := frames + [sfp];
      curframe := sfp;
      view := view + [sfp.View()];
      peak := Higher(peak, |frames|);
    }

    method EnterFrame()
      requires Valid()
      modifies this, stkframecache
      ensures Valid() && fresh(Objects() - old(Objects()))
      ensures fresh(curframe) || curframe in old(stkframecache)
      ensures |frames| == |old(frames)| + 1 && frames[..|old(frames)|] == old(frames)
      ensures curframe != null && curframe == frames[|frames| - 1]
      ensures curframe.View() == Frame(curframe.curmethod, [], [], [], NoError, Void, |stack|, curframe.pc)
      ensures view == old(view) + [curframe.View()]
      ensures stack == old(stack) && mode == old(mode)
      ensures peak == Higher(old(peak), |frames|)
    {
      var sfp := TakeFrame();
      sfp.Reset(|stack|);
      assert Pool();
      Activate(sfp);
    }

    /** Pops operands until at most `count` are left. */
    method TrimStack(count: int)
      modifies this`stack
      ensures stack == Trim(old(stack), count)
    {
      while |stack| > count && stack != []
        invariant Trim(stack, count) == Trim(old(stack), count)
        decreases |stack|
      {
        stack := stack[..|stack| - 1];
      }
    }

    /** Records what happened to the current frame in the view. */
    ghost method Observe()
      requires |view| == |frames| && Distinct(frames) && Distinct(stkframecache)
      requires forall f :: f in stkframecache ==> f !in frames && f.IsClear()
      requires curframe != null && frames != [] && curframe == frames[|frames| - 1]
      requires forall i :: 0 <= i < |frames| - 1 ==> view[i] == frames[i].View()
      modifies this`view
      ensures Pool() && view == old(view)[|frames| - 1 := curframe.View()]
    {
      view := view[|frames| - 1 := curframe.View()];
    }

    method ClearFrame()
      requires Valid() && curframe != null
      modifies curframe, this`view
      ensures Valid() && curframe.IsClear()
      ensures view[..|frames| - 1] == old(view)[..|frames| - 1]
      ensures curframe.View() == old(curframe.View()).(locals := [], blocks := [], history := [])
    {
      curframe.locals := [];
      curframe.blockframes := [];
      curframe.history := [];
      Observe();
    }

    /** Moves the cleared top frame to the cache. */
    method Retire()
      requires Valid() && curframe != null && curframe.IsClear()
      modifies this`frames, this`curframe, this`view, this`stkframecache
      ensures Valid() && Objects() == old(Objects())
      ensures frames == old(frames)[..|old(frames)| - 1] && view == old(view)[..|old(frames)| - 1]
      ensures stkframecache == old(stkframecache) + [old(curframe)]
    {
      var f: StackFrame := curframe;
      assert f in frames;
      DistinctSnoc(stkframecache, f);
      stkframecache := stkframecache + [f];
      frames := frames[..|frames| - 1];
      curframe := if frames == [] then null else frames[|frames| - 1];
      view := view[..|frames|];
    }

    /** The operand stack once frame f is left; `found` is false when the method
        lookup failed. */
    function StackLeft(st: seq<Value>, found: bool, f: Frame): seq<Value>
      requires found ==> f.meth < |prog.methods|
    {
      var kept := if found then Trim(st, f.stackcount - prog.methods[f.meth].sig.argc) else st;
      if (found && prog.methods[f.meth].hasretval && f.err == NoError) || f.err == Exception then kept + [f.retval]
        else kept
    }

    /** The operand part of leaveFrame. */
    method TakeResult(f: StackFrame, found: bool)
      requires found ==> f.curmethod < |prog.methods|
      modifies this`stack
      ensures stack == StackLeft(old(stack), found, f.View())
    {
      if found {
        TrimStack(f.stackcount - prog.methods[f.curmethod].sig.argc);
      }
      if (found && prog.methods[f.curmethod].hasretval) || f.err == Exception {
        if f.err == NoError || f.err == Exception {
          stack := stack + [f.retval];
        }
      }
    }

    /** leaveFrame of a call that consumes its arguments. */
    method LeaveFrame(found: bool)
      requires Valid() && curframe != null && (found ==> curframe.curmethod < |prog.methods|)
      modifies this, curframe
      ensures Valid() && Objects() == old(Objects()) && peak == old(peak) && mode == old(mode)
      ensures frames == old(frames)[..|old(frames)| - 1] && view == old(view)[..|old(frames)| - 1]
      ensures stkframecache == old(stkframecache) + [old(curframe)]
      ensures stack == StackLeft(old(stack), found, old(curframe.View()))
    {
      var f: StackFrame := curframe;
      ClearFrame();
      TakeResult(f, found);
      Retire();
    }

    // ------------------------------------------------------------ the top frame

    /** The top frame as the view has it. */
    lemma TopView()
      requires Valid() && curframe != null
      ensures frames != [] && curframe in frames && curframe == frames[|frames| - 1]
      ensures view[|frames| - 1] == curframe.View()
    {
    }

    method SetError(e: Err)
      requires Valid() && curframe != null
      modifies curframe, this`view
      ensures Valid() && view == old(view)[|frames| - 1 := old(curframe.View()).(err := e)]
    {
      curframe.err := e;
      Observe();
    }

    method LeaveTopBlock()
      requires Valid() && curframe != null
      modifies curframe, this`view
      ensures Valid() && view == old(view)[|frames| - 1 := VmMachine.LeaveBlock(old(curframe.View()))]
    {
      curframe.LeaveBlock();
      Observe();
    }

    /** leaveBlock and leaveFrame at the end of a call. */
    method LeaveCall()
      requires Valid() && curframe != null && curframe.curmethod < |prog.methods|
      modifies this, curframe
      ensures Valid() && Objects() == old(Objects()) && peak == old(peak) && mode == old(mode)
      ensures view == old(view)[..|old(view)| - 1]
      ensures stack == StackLeft(old(stack), true, old(curframe.View()))
    {
      TopView();
      LeaveTopBlock();
      TopView();
      LeaveFrame(true);
    }

    /** The end of `_interp`. */
    method EndInterp() returns (e: Err)
      requires Valid() && curframe != null && curframe.curmethod < |prog.methods|
      modifies this`stack, curframe, this`view
      ensures Valid()
      ensures var f := old(curframe.View());
              && e == (if f.err == Returned then NoError else f.err)
              && curframe.View() == f.(err := e) && view == old(view)[|frames| - 1 := f.(err := e)]
              && stack == Trim(old(stack), Base(prog, f) + Ret(MethodOf(prog, f)))
    {
      if curframe.err == Returned {
        TopView();
        SetError(NoError);
      }
      TopView();
      var m := prog.methods[curframe.curmethod];
      TrimStack(curframe.stackcount - m.sig.argc + Ret(m));
      e := curframe.err;
    }

    lemma ExitParts(s: VmMachine.State)
      requires s.frames != [] && Top(s).meth < |prog.methods|
      ensures var f := Top(s);
              var e := if f.err == Returned then NoError else f.err;
              ExitFrame(prog, s) == VmMachine.State(
                StackLeft(Trim(s.stack, Base(prog, f) + Ret(MethodOf(prog, f))), true, f.(err := e)),
                s.frames[..|s.frames| - 1], Returning(e))
    {
      hide Trim;
    }

    /** The end of `_interp` and of the call that ran it. */
    method Exit()
      requires Valid() && curframe != null && curframe.curmethod < |prog.methods|
      modifies this, curframe
      ensures Valid() && Objects() == old(Objects()) && peak == old(peak)
      ensures State() == ExitFrame(prog, old(State()))
    {
      hide Trim, StackLeft, ExitFrame;
      TopView();
      ExitParts(State());
      var e := EndInterp();
      LeaveCall();
      mode := Returning(e);
    }

    // ------------------------------------------------------------ one instruction

    /** The outcome of a handler, with everything but the top frame in place. */
    twostate predicate Ran(r: Local)
      requires old(curframe != null && frames != [])
      reads `stack, `mode, `view, `frames
    {
      && r.Local? && stack == r.stack && mode == old(mode)
      && frames == old(frames) && |old(view)| == |frames| && view == old(view)[|frames| - 1 := r.frame]
    }

    /** The handlers that compute on the top of the operand stack. */
    method RunValue(d: Decoded, c: Choice)
      requires Valid() && curframe != null && Needs(ActionOf(d.op)) <= |stack|
      requires var a := ActionOf(d.op);
               a in {Skip, Assign, Pop, Dup, Rot, Rot3} || a.Push? || a.Unary? || a.Binary?
      modifies this`stack, this`view, curframe
      ensures Valid() && Ran(ExecOperand(d, old(stack), old(curframe.View()), c))
    {
      TopView();
      var n := |stack|;
      match ActionOf(d.op) {
        case Push(fault) =>
          if c.fails && fault != NoError { curframe.err := fault; } else { stack := stack + [c.value]; }
        case Unary(fault) =>
          stack := stack[n - 1 := c.value];
          if c.fails && fault != NoError { curframe.err := fault; }
        case Binary(fault) =>
          if c.fails && fault != NoError { curframe.err := fault; } else { stack := stack[..n - 2] + [c.value]; }
        case Assign => stack := stack[..n - 2];
        case Pop => stack := stack[..n - 1];
        case Dup => stack := stack + [stack[n - 1]];
        case Rot => stack := stack[n - 1 := stack[n - 2]][n - 2 := stack[n - 1]];
        case Rot3 => stack := stack[n - 1 := stack[n - 3]][n - 3 := stack[n - 1]];
        case Skip =>
      }
      Observe();
    }

    /** The jumps and the default case. */
    method RunJump(d: Decoded, c: Choice)
      requires Valid() && curframe != null && Needs(ActionOf(d.op)) <= |stack|
      requires ActionOf(d.op) in {CondJump, Jump, Unknown}
      modifies this`stack, this`view, curframe
      ensures Valid() && Ran(ExecOperand(d, old(stack), old(curframe.View()), c))
    {
      TopView();
      match ActionOf(d.op) {
        case CondJump =>
          if c.fails {
            curframe.err := TypeMismatch;
          } else {
            if c.taken { curframe.pc := Address(d, c); }
            stack := stack[..|stack| - 1];
          }
        case Jump => curframe.pc := Address(d, c);
        case Unknown => curframe.err := UnknownOpcode;
      }
      Observe();
    }

    method RunReturn(d: Decoded, c: Choice)
      requires Valid() && curframe != null && Needs(ActionOf(d.op)) <= |stack|
      requires ActionOf(d.op) in {VoidReturn, ValueReturn}
      modifies this`stack, this`view, curframe
      ensures Valid() && Ran(ExecOperand(d, old(stack), old(curframe.View()), c))
    {
      TopView();
      if ActionOf(d.op).ValueReturn? {
        curframe.retval := Deref(stack[|stack| - 1], c);
        stack := stack[..|stack| - 1];
        curframe.LeaveBlock();
      }
      curframe.err := Returned;
      Observe();
    }

    method RunThrow(c: Choice)
      requires Valid() && curframe != null && ExecThrow(stack, curframe.View(), c).Local?
      modifies this`stack, this`view, curframe
      ensures Valid() && Ran(ExecThrow(old(stack), old(curframe.View()), c))
    {
      TopView();
      var pc := curframe.GetCatch();
      curframe.pc := pc;
      if pc != -1 {
        curframe.err := NoError;
      } else {
        var v := Deref(stack[|stack| - 1], c);
        stack := stack[|stack| - 1 := v];
        curframe.retval := v;
        curframe.LeaveBlock();
        curframe.err := Exception;
      }
      Observe();
    }

    /** The switch of `_interp` for everything but calls. */
    method RunLocal(d: Decoded, c: Choice)
      requires Valid() && curframe != null && !IsCall(ActionOf(d.op))
      requires Execute(d, stack, curframe.View(), c).Local?
      modifies this`stack, this`view, curframe
      ensures Valid() && Ran(Execute(d, old(stack), old(curframe.View()), c))
    {
      var a := ActionOf(d.op);
      if a.Throw? {
        RunThrow(c);
      } else if a in {Enter, Leave, SetBreak, Try, Break, Continue} {
        TopView();
        curframe.RunBlock(d, c, stack);
        Observe();
      } else if a in {CondJump, Jump, Unknown} {
        RunJump(d, c);
      } else if a in {VoidReturn, ValueReturn} {
        RunReturn(d, c);
      } else {
        RunValue(d, c);
      }
    }

    // ------------------------------------------------------------ calls

    /** From the lookup of method k to its first instruction: the arguments move
        from the operand stack into the new frame's locals, last one first. */
    method Prologue(k: nat)
      requires Valid() && k < |prog.methods| && prog.methods[k].sig.argc <= |stack|
      modifies this, stkframecache
      ensures Valid() && fresh(Objects() - old(Objects()))
      ensures curframe != null && (fresh(curframe) || curframe in old(stkframecache))
      ensures curframe.View() == NewFrame(k, prog.methods[k].sig.argc, |old(stack)|)
      ensures view == old(view) + [curframe.View()] && mode == old(mode)
      ensures stack == old(stack)[..|old(stack)| - prog.methods[k].sig.argc]
      ensures peak == Higher(old(peak), |frames|)
    {
      EnterMethod(k);
      PopArguments(prog.methods[k].sig.argc);
    }

    /** enterFrame and enterBlock of a method that was found, its locals in place. */
    method EnterMethod(k: nat)
      requires Valid() && k < |prog.methods|
      modifies this, stkframecache
      ensures Valid() && fresh(Objects() - old(Objects()))
      ensures curframe != null && (fresh(curframe) || curframe in old(stkframecache))
      ensures curframe.View() == NewFrame(k, prog.methods[k].sig.argc, |old(stack)|)
      ensures view == old(view) + [curframe.View()] && mode == old(mode) && stack == old(stack)
      ensures peak == Higher(old(peak), |frames|)
    {
      EnterFrame();
      TopView();
      curframe.StartCall(k, prog.methods[k].sig.argc);
      Observe();
    }

    method PopArguments(argc: nat)
      requires argc <= |stack|
      modifies this`stack
      ensures stack == old(stack)[..|old(stack)| - argc]
    {
      var x := argc;
      while x > 0
        invariant 0 <= x <= argc && stack == old(stack)[..|old(stack)| - (argc - x)]
      {
        stack := stack[..|stack| - 1];
        x := x - 1;
      }
    }

    /** The call of a native method, its frame set up. */
    method NativeCall(c: Choice)
      requires Valid() && curframe != null && curframe.curmethod < |prog.methods|
      requires curframe.err == NoError && |stack| == curframe.stackcount - prog.methods[curframe.curmethod].sig.argc
      modifies this, curframe
      ensures Valid() && Objects() == old(Objects()) && peak == old(peak)
      ensures view == old(view)[..|old(view)| - 1] && mode == Returning(c.native)
      ensures stack == old(stack) + if prog.methods[old(curframe.curmethod)].hasretval then [c.value] else []
    {
      TopView();
      curframe.retval := c.value;
      Observe();
      LeaveCall();
      mode := Returning(c.native);
    }

    /** A call whose method is not found: its frame is entered and left again. */
    method FailLookup(popthis: bool)
      requires Valid() && (popthis ==> stack != [])
      modifies this, stkframecache
      ensures Valid() && fresh(Objects() - old(Objects()))
      ensures view == old(view) && mode == Returning(UnknownMethod) && peak == Higher(old(peak), |old(frames)| + 1)
      ensures stack == if popthis then old(stack)[..|old(stack)| - 1] else old(stack)
    {
      hide StackLeft;
      EnterFrame();
      LeaveUnfound(popthis);
    }

    /** The way out of a frame entered for a method that does not exist. */
    method LeaveUnfound(popthis: bool)
      requires Valid() && curframe != null && curframe.err == NoError && (popthis ==> stack != [])
      modifies this, curframe
      ensures Valid() && Objects() == old(Objects()) && peak == old(peak)
      ensures view == old(view)[..|old(frames)| - 1] && mode == Returning(UnknownMethod)
      ensures stack == if popthis then old(stack)[..|old(stack)| - 1] else old(stack)
    {
      if popthis {
        stack := stack[..|stack| - 1];
      }
      LeaveFrame(false);
      mode := Returning(UnknownMethod);
    }

    method CallFound(k: nat, c: Choice)
      requires Valid() && k < |prog.methods| && prog.methods[k].sig.argc <= |stack| && mode.Running?
      modifies this, stkframecache
      ensures Valid() && fresh(Objects() - old(Objects()))
      ensures var m, base := prog.methods[k], old(stack)[..|old(stack)| - prog.methods[k].sig.argc];
              State() == if m.isnative
                then VmMachine.State(if m.hasretval then base + [c.value] else base, old(view), Returning(c.native))
                         else VmMachine.State(base, old(view) + [NewFrame(k, m.sig.argc, |old(stack)|)], Running)
      ensures peak == Higher(old(peak), |old(frames)| + 1)
    {
      hide Args;
      Prologue(k);
      if prog.methods[k].isnative {
        NativeCall(c);
      }
    }

    /** callStaticMethod, callInstMethod and callBaseMethod. */
    method Call(d: Decoded, c: Choice)
      requires Valid() && curframe != null && mode.Running?
      requires !EnterCall(prog, State(), d, c).mode.Fault?
      modifies this, stkframecache
      ensures Valid() && fresh(Objects() - old(Objects()))
      ensures State() == EnterCall(prog, old(State()), d, c)
      ensures peak == if c.callee.NoClass? then old(peak) else Higher(old(peak), |old(frames)| + 1)
    {
      match c.callee {
        case NoClass => mode := Returning(MainClassNotFound);
        case NoMethod => FailLookup(ActionOf(d.op).Call? && c.inst);
        case Found(k) =>
          if k < |prog.methods| {
            CallFound(k, c);
          } else {
            FailLookup(false);
          }
      }
    }

    /** The caller's handling of the error a call returned. */
    method Handle(e: Err)
      requires Valid() && curframe != null && !Deliver(State(), e).mode.Fault?
      modifies this`stack, this`mode, this`view, curframe
      ensures Valid() && State() == Deliver(old(State()), e)
    {
      TopView();
      if e != Exception {
        curframe.err := e;
      } else {
        var pc := curframe.GetCatch();
        curframe.pc := pc;
        if pc != -1 {
          curframe.err := NoError;
        } else {
          curframe.err := e;
          curframe.retval := stack[|stack| - 1];
          stack := stack[..|stack| - 1];
        }
      }
      mode := Running;
      Observe();
    }

    // ------------------------------------------------------------ steps

    /** The head of the `_interp` loop: decode, and move the pc on. */
    method FetchNext() returns (d: Decoded)
      requires Valid() && VmMachine.Executes(prog, State())
      modifies curframe, this`view
      ensures Valid() && d == old(Current(prog, State()).value) && State() == Advanced(prog, old(State()))
    {
      hide Fetch;
      TopView();
      d := Fetch(prog.methods[curframe.curmethod].code, curframe.pc).value;
      curframe.pc := d.next;
      Observe();
    }

    method Dispatch(d: Decoded, c: Choice)
      requires Valid() && mode.Running? && curframe != null
      requires IsCall(ActionOf(d.op)) ==> !EnterCall(prog, State(), d, c).mode.Fault?
      requires !IsCall(ActionOf(d.op)) ==> VmMachine.Execute(d, stack, Top(State()), c).Local?
      modifies this, curframe, stkframecache
      ensures Valid() && fresh(Objects() - old(Objects()))
      ensures State() == if IsCall(ActionOf(d.op)) then EnterCall(prog, old(State()), d, c)
                         else ExecuteLocal(old(State()), d, c)
      ensures peak == if IsCall(ActionOf(d.op)) && !c.callee.NoClass?
                      then Higher(old(peak), |old(frames)| + 1) else old(peak)
    {
      hide EnterCall, VmMachine.Execute;
      TopView();
      if IsCall(ActionOf(d.op)) {
        Call(d, c);
      } else {
        RunLocal(d, c);
      }
    }

    /** One instruction: fetch, advance the pc, run the handler. */
    method RunInstruction(c: Choice)
      requires Valid() && VmMachine.Executes(prog, State())
      requires !VmMachine.Step(prog, State(), c).mode.Fault?
      modifies this, curframe, stkframecache
      ensures Valid() && fresh(Objects() - old(Objects())) && State() == VmMachine.Step(prog, old(State()), c)
      ensures peak == Higher(old(peak), old(Reached(prog, State(), c)))
    {
      hide EnterCall, VmMachine.Execute, Fetch, VmMachine.Step;
      StepExecutes(prog, State(), c);
      var d := FetchNext();
      Dispatch(d, c);
    }

    /** One step of the machine, on its objects. */
    method Step(c: Choice)
      requires Valid() && Shape(prog, State())
      requires !VmMachine.Step(prog, State(), c).mode.Fault?
      modifies this, frames, stkframecache
      ensures Valid() && fresh(Objects() - old(Objects())) && State() == VmMachine.Step(prog, old(State()), c)
      ensures peak == Higher(old(peak), old(Reached(prog, State(), c)))
    {
      hide ExitFrame, Deliver, EnterCall, ExecuteLocal, Fetch;
      if mode.Returning? {
        if curframe != null {
          TopView();
          Handle(mode.err);
        }
      } else {
        TopView();
        if curframe.pc >= |prog.methods[curframe.curmethod].code| || curframe.err != NoError {
          Exit();
        } else {
          RunInstruction(c);
        }
      }
    }

    /** The tail of qinterpRun. */
    method TakeVarret() returns (varret: Option<Value>)
      modifies this`stack
      ensures Outcome(stack, varret) == FinishRun(old(State()))
    {
      varret := None;
      if stack != [] {
        varret := Some(stack[|stack| - 1]);
        stack := stack[..|stack| - 1];
      }
    }
  }
}
