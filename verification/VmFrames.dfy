/**
  What every step keeps about frames, without any assumption on operand heights:
  a frame's locals are its argument slots followed by the slots of its open
  blocks, and the break target each block caches is the one a search through the
  enclosing blocks would find.
 */
module VmFrames {

  import opened Common
  import opened VmCode
  import opened VmMachine

  // ---------------------------------------------------------------- the frame invariant

  /** Argument slots, then for each open block the slots its ENTER allocated. */
  function Layout(argc: nat, blocks: seq<Block>): seq<Slot> {
    if blocks == [] then Args(argc)
    else
      var last := |blocks| - 1;
      Layout(argc, blocks[..last]) + Vars(blocks[last].localcount, last)
  }

  /** Break target and depth of the nearest of the first n blocks that executed
      SETBREAK; (-1, 0) when none did. */
  function NearestBreak(history: seq<Option<int>>, n: nat): (int, nat)
    requires n <= |history|
  {
    if n == 0 then (-1, 0)
    else if history[n - 1].Some? then (history[n - 1].value, n)
    else NearestBreak(history, n - 1)
  }

  /** Every block caches what the search from it finds. */
  predicate CacheAgrees(blocks: seq<Block>, history: seq<Option<int>>) {
    && |history| == |blocks|
    && forall k :: 0 <= k < |blocks| ==> (blocks[k].breakpc, blocks[k].blockcount) == NearestBreak(history, k + 1)
  }

  predicate FrameShape(p: Program, f: Frame) {
    && f.meth < |p.methods|
    && !MethodOf(p, f).isnative
    && MethodOf(p, f).sig.argc <= f.stackcount
    && f.locals == Layout(MethodOf(p, f).sig.argc, f.blocks)
    && CacheAgrees(f.blocks, f.history)
  }

  predicate Shape(p: Program, s: State) {
    && (forall i :: 0 <= i < |s.frames| ==> FrameShape(p, s.frames[i]))
    && (forall i :: 0 <= i < |s.frames| - 1 ==> s.frames[i].err == NoError)
    && (s.mode.Returning? && s.frames != [] ==> Top(s).err == NoError)
    && (s.mode.Running? ==> s.frames != [])
  }

  /** Two frames of the same activation. */
  predicate SameCall(f: Frame, g: Frame) {
    f.meth == g.meth && f.stackcount == g.stackcount
  }

  // ---------------------------------------------------------------- block operations

  lemma {:induction false} NearestBreakPrefix(h: seq<Option<int>>, n: nat, m: nat)
    requires n <= m <= |h|
    ensures NearestBreak(h[..m], n) == NearestBreak(h, n)
  {
    if n > 0 {
      NearestBreakPrefix(h, n - 1, m);
    }
  }

  /** The cached depth never exceeds the block's own depth. */
  lemma {:induction false} NearestBreakDepth(h: seq<Option<int>>, n: nat)
    requires n <= |h|
    ensures NearestBreak(h, n).1 <= n
  {
    if n > 0 {
      NearestBreakDepth(h, n - 1);
    }
  }

  lemma CachePrefix(blocks: seq<Block>, h: seq<Option<int>>, m: nat)
    requires CacheAgrees(blocks, h) && m <= |blocks|
    ensures CacheAgrees(blocks[..m], h[..m])
  {
    forall k | 0 <= k < m
      ensures (blocks[..m][k].breakpc, blocks[..m][k].blockcount) == NearestBreak(h[..m], k + 1)
    {
      NearestBreakPrefix(h, k + 1, m);
    }
  }

  /** Replacing or adding the innermost block keeps the cache right when the new
      block itself is right. */
  lemma CacheExtend(blocks: seq<Block>, h: seq<Option<int>>, b: Block, o: Option<int>)
    requires CacheAgrees(blocks, h)
    requires (b.breakpc, b.blockcount) == NearestBreak(h + [o], |h| + 1)
    ensures CacheAgrees(blocks + [b], h + [o])
  {
    var h' := h + [o];
    assert h'[..|h|] == h;
    forall k | 0 <= k < |blocks|
      ensures (blocks[k].breakpc, blocks[k].blockcount) == NearestBreak(h', k + 1)
    {
      NearestBreakPrefix(h', k + 1, |h|);
    }
  }

  lemma EnterBlockShape(p: Program, f: Frame, n: int)
    requires FrameShape(p, f)
    ensures FrameShape(p, EnterBlock(f, n)) && SameCall(f, EnterBlock(f, n))
  {
    var b := Block(n, GetBreak(f), GetBreakBlockCount(f), -1);
    var h' := f.history + [None];
    NearestBreakPrefix(h', |f.history|, |f.history|);
    assert h'[..|f.history|] == f.history;
    CacheExtend(f.blocks, f.history, b, None);
    assert (f.blocks + [b])[..|f.blocks|] == f.blocks;
  }

  lemma LeaveBlockShape(p: Program, f: Frame)
    requires FrameShape(p, f)
    ensures FrameShape(p, LeaveBlock(f)) && SameCall(f, LeaveBlock(f))
    ensures f.blocks != [] ==>
              var m := |f.blocks| - 1;
              LeaveBlock(f) == f.(blocks := f.blocks[..m], history := f.history[..m],
                                  locals := Layout(MethodOf(p, f).sig.argc, f.blocks[..m]))
  {
    if f.blocks != [] {
      CachePrefix(f.blocks, f.history, |f.blocks| - 1);
    }
  }

  lemma SetBreakShape(p: Program, f: Frame, pc: int)
    requires FrameShape(p, f) && f.blocks != []
    ensures FrameShape(p, WithBreak(f, pc)) && SameCall(f, WithBreak(f, pc))
  {
    var m := |f.blocks| - 1;
    var b := f.blocks[m].(breakpc := pc, blockcount := |f.blocks|);
    CachePrefix(f.blocks, f.history, m);
    CacheExtend(f.blocks[..m], f.history[..m], b, Some(pc));
    assert f.blocks[m := b] == f.blocks[..m] + [b];
  }

  lemma SetTryShape(p: Program, f: Frame, pc: int)
    requires FrameShape(p, f) && f.blocks != []
    ensures FrameShape(p, WithCatch(f, pc)) && SameCall(f, WithCatch(f, pc))
  {
  }

  // ---------------------------------------------------------------- getCatch is a search

  /** 1 + index of the innermost block with a catch target; 0 when there is none. */
  function Handler(blocks: seq<Block>): (n: nat)
    ensures n <= |blocks|
    ensures n > 0 ==> blocks[n - 1].catchpc != -1
    ensures forall k :: n <= k < |blocks| ==> blocks[k].catchpc == -1
  {
    if blocks == [] then 0
    else if blocks[|blocks| - 1].catchpc != -1 then |blocks|
    else Handler(blocks[..|blocks| - 1])
  }

  /** The frame once every block past the first n is left. */
  function Unwound(p: Program, f: Frame, n: nat): Frame
    requires f.meth < |p.methods| && n <= |f.blocks| && n <= |f.history|
  {
    f.(blocks := f.blocks[..n], history := f.history[..n],
       locals := Layout(MethodOf(p, f).sig.argc, f.blocks[..n]))
  }

  lemma UnwoundShape(p: Program, f: Frame, n: nat)
    requires FrameShape(p, f) && n <= |f.blocks|
    ensures FrameShape(p, Unwound(p, f, n)) && SameCall(f, Unwound(p, f, n))
  {
    CachePrefix(f.blocks, f.history, n);
  }

  lemma {:induction false} GetCatchFinds(p: Program, f: Frame)
    requires FrameShape(p, f)
    ensures var n := Handler(f.blocks);
            GetCatch(f) == (Unwound(p, f, n), if n == 0 then -1 else f.blocks[n - 1].catchpc)
    decreases |f.blocks|
  {
    var m := |f.blocks|;
    if m > 0 && f.blocks[m - 1].catchpc == -1 {
      LeaveBlockShape(p, f);
      GetCatchFinds(p, LeaveBlock(f));
      var n := Handler(f.blocks);
      assert f.blocks[..m - 1][..n] == f.blocks[..n];
      assert f.history[..m - 1][..n] == f.history[..n];
    } else {
      assert f.blocks[..m] == f.blocks && f.history[..m] == f.history;
    }
  }

  lemma GetCatchShape(p: Program, f: Frame)
    requires FrameShape(p, f)
    ensures FrameShape(p, GetCatch(f).0) && SameCall(f, GetCatch(f).0)
    ensures GetCatch(f).1 == -1 ==> GetCatch(f).0.blocks == []
  {
    GetCatchFinds(p, f);
    UnwoundShape(p, f, Handler(f.blocks));
  }

  // ---------------------------------------------------------------- steps keep the shape

  /** breakBlock's loop guard is false in every frame the machine can reach, so
      BREAK and CONTINUE terminate and leave no block. */
  lemma BreakNeverUnwinds(p: Program, f: Frame)
    requires FrameShape(p, f)
    ensures GetBreakBlockCount(f) <= |f.blocks|
    ensures (GetBreak(f), GetBreakBlockCount(f)) == NearestBreak(f.history, |f.history|)
  {
    NearestBreakDepth(f.history, |f.history|);
  }

  /** What one instruction may do to the frame it runs in. */
  predicate KeepsShape(p: Program, f: Frame, r: Local) {
    match r
    case Local(_, g) => FrameShape(p, g) && SameCall(f, g)
    case Bad(kind) => kind.Underflow? || kind.NoBlock? || kind.NotModelled?
  }

  lemma ExecThrowShape(p: Program, st: seq<Value>, f: Frame, c: Choice)
    requires FrameShape(p, f)
    ensures KeepsShape(p, f, ExecThrow(st, f, c))
  {
    GetCatchShape(p, f);
  }

  lemma ExecBlockShape(p: Program, d: Decoded, st: seq<Value>, f: Frame, c: Choice)
    requires FrameShape(p, f)
    ensures KeepsShape(p, f, ExecBlock(d, st, f, c))
  {
    match ActionOf(d.op)
    case Enter => EnterBlockShape(p, f, d.arg1);
    case Leave => LeaveBlockShape(p, f);
    case SetBreak => if f.blocks != [] { SetBreakShape(p, f, Address(d, c)); }
    case Try => if f.blocks != [] { SetTryShape(p, f, Address(d, c)); }
    case _ => BreakNeverUnwinds(p, f);
  }

  lemma ExecOperandShape(p: Program, d: Decoded, st: seq<Value>, f: Frame, c: Choice)
    requires FrameShape(p, f) && Needs(ActionOf(d.op)) <= |st|
    ensures KeepsShape(p, f, ExecOperand(d, st, f, c))
  {
    if ActionOf(d.op).ValueReturn? {
      LeaveBlockShape(p, f.(retval := Deref(st[|st| - 1], c)));
    }
  }

  lemma ExecuteShape(p: Program, d: Decoded, st: seq<Value>, f: Frame, c: Choice)
    requires FrameShape(p, f) && !IsCall(ActionOf(d.op))
    ensures KeepsShape(p, f, Execute(d, st, f, c))
  {
    var a := ActionOf(d.op);
    if a.Throw? {
      ExecThrowShape(p, st, f, c);
    } else if Needs(a) <= |st| {
      ExecBlockShape(p, d, st, f, c);
      ExecOperandShape(p, d, st, f, c);
    }
  }

  lemma NewFrameShape(p: Program, m: nat, h: nat)
    requires m < |p.methods| && !p.methods[m].isnative && p.methods[m].sig.argc <= h
    ensures FrameShape(p, NewFrame(m, p.methods[m].sig.argc, h))
  {
  }

  lemma DeliverShape(p: Program, s: State, e: Err)
    requires Shape(p, s) && s.mode == Returning(e) && s.frames != []
    ensures Shape(p, Deliver(s, e))
  {
    GetCatchShape(p, Top(s));
  }

  lemma EnterCallShape(p: Program, s: State, d: Decoded, c: Choice)
    requires Shape(p, s) && s.mode.Running? && Top(s).err == NoError
    ensures Shape(p, EnterCall(p, s, d, c))
  {
    if c.callee.Found? && c.callee.m < |p.methods| {
      var m := c.callee.m;
      if !p.methods[m].isnative && p.methods[m].sig.argc <= |s.stack| {
        NewFrameShape(p, m, |s.stack|);
      }
    }
  }

  lemma ExecuteLocalShape(p: Program, s: State, d: Decoded, c: Choice)
    requires Shape(p, s) && s.mode.Running? && !IsCall(ActionOf(d.op))
    ensures Shape(p, ExecuteLocal(s, d, c))
  {
    ExecuteShape(p, d, s.stack, Top(s), c);
  }

  lemma AdvancedShape(p: Program, s: State)
    requires Shape(p, s) && Executes(p, s)
    ensures Shape(p, Advanced(p, s)) && Top(Advanced(p, s)).err == NoError
  {
  }

  lemma StepShape(p: Program, s: State, c: Choice)
    requires Shape(p, s)
    ensures Shape(p, Step(p, s, c))
  {
    if s.mode.Returning? && s.frames != [] {
      DeliverShape(p, s, s.mode.err);
    } else if Executes(p, s) {
      var d := Current(p, s).value;
      AdvancedShape(p, s);
      if !IsCall(ActionOf(d.op)) {
        ExecuteLocalShape(p, Advanced(p, s), d, c);
      } else {
        EnterCallShape(p, Advanced(p, s), d, c);
      }
    }
  }

  lemma StartShape(p: Program, m: nat)
    requires m < |p.methods| && !p.methods[m].isnative
    ensures Shape(p, Start(p, m))
  {
    NewFrameShape(p, m, p.methods[m].sig.argc);
  }

  /** The choice behind one step of a run. */
  lemma StepOf(p: Program, run: seq<State>, i: nat) returns (c: Choice)
    requires IsRun(p, run) && i + 1 < |run|
    ensures Enabled(p, run[i], c) && run[i + 1] == Step(p, run[i], c)
  {
    hide Step, Enabled;
    assert Next(p, run[i], run[i + 1]);
    c :| Enabled(p, run[i], c) && run[i + 1] == Step(p, run[i], c);
  }

  /** Every state of every run has the shape: locals are exactly argument slots
      plus the slots of the open blocks, and cached break targets agree with the
      search, whatever calls, returns, breaks and throws the run makes. */
  lemma {:induction false} RunShape(p: Program, run: seq<State>, n: nat)
    requires IsRun(p, run) && Shape(p, run[0]) && n < |run|
    ensures Shape(p, run[n])
  {
    hide Step, Enabled, Next, Shape;
    if n > 0 {
      RunShape(p, run, n - 1);
      var c := StepOf(p, run, n - 1);
      StepShape(p, run[n - 1], c);
    }
  }

  // ---------------------------------------------------------------- what the shape says about a run

  /** Sum of the local counts of the open blocks. */
  function LocalCount(blocks: seq<Block>): nat {
    if blocks == [] then 0
    else
      var n := blocks[|blocks| - 1].localcount;
      LocalCount(blocks[..|blocks| - 1]) + if n < 0 then 0 else n
  }

  lemma {:induction false} LayoutCount(argc: nat, blocks: seq<Block>)
    ensures |Layout(argc, blocks)| == argc + LocalCount(blocks)
    ensures Args(argc) <= Layout(argc, blocks)
  {
    if blocks != [] {
      LayoutCount(argc, blocks[..|blocks| - 1]);
    }
  }

  /** Locals conservation: in every frame of every state of every run, the locals
      number exactly the method's arguments plus what the open blocks allocated,
      and the argument slots are the first of them. */
  lemma LocalsConserved(p: Program, m: nat, run: seq<State>, n: nat, i: nat)
    requires m < |p.methods| && !p.methods[m].isnative
    requires IsRun(p, run) && run[0] == Start(p, m) && n < |run| && i < |run[n].frames|
    ensures var f := run[n].frames[i];
            && f.meth < |p.methods|
            && |f.locals| == MethodOf(p, f).sig.argc + LocalCount(f.blocks)
            && Args(MethodOf(p, f).sig.argc) <= f.locals
  {
    hide IsRun, CacheAgrees;
    StartShape(p, m);
    RunShape(p, run, n);
    var f := run[n].frames[i];
    assert FrameShape(p, f);
    LayoutCount(MethodOf(p, f).sig.argc, f.blocks);
  }

  /** Cached break targets: in every frame of every run, each block's break target
      and block count are those of the nearest enclosing block that executed
      SETBREAK, and the count never exceeds the block's own depth. */
  lemma BreakTargetsAgree(p: Program, m: nat, run: seq<State>, n: nat, i: nat, k: nat)
    requires m < |p.methods| && !p.methods[m].isnative
    requires IsRun(p, run) && run[0] == Start(p, m) && n < |run| && i < |run[n].frames|
    requires k < |run[n].frames[i].blocks|
    ensures var f := run[n].frames[i];
            && |f.history| == |f.blocks|
            && (f.blocks[k].breakpc, f.blocks[k].blockcount) == NearestBreak(f.history, k + 1)
            && f.blocks[k].blockcount <= k + 1
  {
    hide IsRun, Layout;
    StartShape(p, m);
    RunShape(p, run, n);
    assert FrameShape(p, run[n].frames[i]);
    NearestBreakDepth(run[n].frames[i].history, k + 1);
  }
}
