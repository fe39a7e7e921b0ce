/**
  Whole runs of the bytecode machine: the balance of completed calls, the path of
  a thrown value, and the state qinterpRun leaves behind.
 */
module VmRuns {

  import opened Common
  import opened VmCode
  import opened VmMachine
  import opened VmFrames
  import opened VmCalls

  /** Every state has a successor, so runs of every length exist. */
  lemma NextExists(p: Program, s: State)
    ensures exists t :: Next(p, s, t)
  {
    hide Step;
    var c := Choice(Void, false, false, 0, true, NoMethod, NoError);
    assert Enabled(p, s, c);
    assert Next(p, s, Step(p, s, c));
  }

  lemma StepSound(p: Program, s: State, c: Choice)
    requires Sound(p, s) && PopsWithin(p, s) && Enabled(p, s, c)
    ensures Sound(p, Step(p, s, c))
  {
    hide Enabled, StepsAbove, PopsWithin;
    if s.frames != [] {
      TopReach(p, s);
      StepBelow(p, s, c, |s.frames| - 1, Base(p, Top(s)));
    }
  }

  lemma {:induction false} RunSound(p: Program, run: seq<State>, n: nat)
    requires IsRun(p, run) && RunPopsWithin(p, run) && Sound(p, run[0]) && n < |run|
    ensures Sound(p, run[n])
  {
    hide Step, Enabled, Next, Sound, PopsWithin;
    if n > 0 {
      RunSound(p, run, n - 1);
      var c := StepOf(p, run, n - 1);
      StepSound(p, run[n - 1], c);
    }
  }

  // ---------------------------------------------------------------- call balance

  /** While frame n is active the frames under it and the lowest b operands stay. */
  predicate Undisturbed(s: State, t: State, n: nat, b: int)
    requires n < |s.frames|
  {
    && n < |t.frames|
    && t.frames[..n] == s.frames[..n]
    && SameCall(s.frames[n], t.frames[n])
    && Below(s.stack, t.stack, b)
  }

  lemma {:induction false} CalleeActive(p: Program, run: seq<State>, i: nat, n: nat, b: int)
    requires IsRun(p, run) && RunPopsWithin(p, run) && Sound(p, run[0])
    requires n < |run[0].frames| && Owns(p, run[0], n, b)
    requires i < |run| && forall k :: 0 <= k <= i ==> |run[k].frames| > n
    ensures Sound(p, run[i]) && Undisturbed(run[0], run[i], n, b) && Owns(p, run[i], n, b)
  {
    hide Step, Enabled, Next, Shape, Heights, PopsWithin, ExitFrame;
    if i == 0 {
      OwnsReach(p, run[0], n, b);
    } else {
      CalleeActive(p, run, i - 1, n, b);
      var c := StepOf(p, run, i - 1);
      StepBelow(p, run[i - 1], c, n, b);
    }
  }

  /** The exit of the frame that owns exactly its base. */
  lemma ExitDelivers(p: Program, s: State)
    requires Sound(p, s) && HasCode(p, s)
    ensures var t := ExitFrame(p, s);
            var m, b := MethodOf(p, Top(s)), Base(p, Top(s));
            && t.mode.Returning?
            && t.frames == s.frames[..|s.frames| - 1]
            && t.stack == s.stack[..b] + if Delivers(m, t.mode.err) then [Top(s).retval] else []
  {
    TopReach(p, s);
  }

  /** The only steps that add a frame are calls of bytecode methods. */
  lemma EnterStep(p: Program, s: State, c: Choice)
    requires Executes(p, s) && |Step(p, s, c).frames| > |s.frames|
    ensures c.callee.Found? && c.callee.m < |p.methods|
    ensures var k, argc := c.callee.m, p.methods[c.callee.m].sig.argc;
            && argc <= |s.stack|
            && Step(p, s, c) == State(s.stack[..|s.stack| - argc],
                                      Advanced(p, s).frames + [NewFrame(k, argc, |s.stack|)], Running)
  {
    hide Execute;
  }

  lemma TailRun(p: Program, run: seq<State>, n: nat)
    requires IsRun(p, run) && n < |run|
    ensures IsRun(p, run[n..])
    ensures RunPopsWithin(p, run) ==> RunPopsWithin(p, run[n..])
  {
    hide Next, PopsWithin;
    forall k | 0 <= k < |run| - n - 1
      ensures Next(p, run[n..][k], run[n..][k + 1])
    {
      assert Next(p, run[n + k], run[n + k + 1]);
    }
  }

  /** The first state in which frame n is gone is the exit of frame n. */
  lemma CalleeReturns(p: Program, run: seq<State>, i: nat, n: nat, b: int)
    requires IsRun(p, run) && RunPopsWithin(p, run) && Sound(p, run[0])
    requires n < |run[0].frames| && b == Base(p, run[0].frames[n]) && 0 < i < |run|
    requires |run[i].frames| <= n && forall k :: 0 <= k < i ==> |run[k].frames| > n
    ensures var last := run[i - 1];
            && Sound(p, last) && HasCode(p, last) && run[i] == ExitFrame(p, last)
            && |last.frames| == n + 1 && Undisturbed(run[0], last, n, b)
  {
    hide Step, Enabled, Next, Shape, Heights, PopsWithin, ExitFrame;
    assert Owns(p, run[0], n, b) by { TopReach(p, run[0]); BaseNonNegative(p, run[0], n); }
    CalleeActive(p, run, i - 1, n, b);
    var c := StepOf(p, run, i - 1);
    StepBelow(p, run[i - 1], c, n, b);
  }

  lemma BaseNonNegative(p: Program, s: State, n: nat)
    requires Sound(p, s) && n < |s.frames|
    ensures FrameShape(p, s.frames[n]) && 0 <= Base(p, s.frames[n])
  {
  }

  /** Call balance.  run[0] executes a call that enters a bytecode method, and
      run[i] is the first later state with as few frames as before.  Then the
      frames are those of the caller, its pc past the call; its operands are those
      below the arguments, plus the returned value or the exception exactly when
      the callee delivers one. */
  lemma CallBalance(p: Program, run: seq<State>, i: nat)
    requires IsRun(p, run) && RunPopsWithin(p, run) && Sound(p, run[0])
    requires Executes(p, run[0]) && 1 < i < |run|
    requires |run[1].frames| == |run[0].frames| + 1 && |run[i].frames| <= |run[0].frames|
    requires forall k :: 1 <= k < i ==> |run[k].frames| > |run[0].frames|
    ensures run[i].mode.Returning?
    ensures run[i].frames == Advanced(p, run[0]).frames
    ensures var f := run[1].frames[|run[0].frames|];
            && f.meth < |p.methods| && MethodOf(p, f).sig.argc <= |run[0].stack|
            && run[i].stack == run[0].stack[..|run[0].stack| - MethodOf(p, f).sig.argc]
                 + if Delivers(MethodOf(p, f), run[i].mode.err) then [run[i - 1].frames[|run[0].frames|].retval] else []
  {
    hide Step, Enabled, Next, Shape, Heights, PopsWithin, ExitFrame, StepsAbove, Advanced;
    var n := |run[0].frames|;
    var c0 := StepOf(p, run, 0);
    StepSound(p, run[0], c0);
    EnterStep(p, run[0], c0);
    var argc := p.methods[c0.callee.m].sig.argc;
    assert |Advanced(p, run[0]).frames| == n by { assert |run[1].frames| == n + 1; }
    assert Base(p, run[1].frames[n]) == |run[0].stack| - argc;
    TailRun(p, run, 1);
    CalleeReturns(p, run[1..], i - 1, n, Base(p, run[1].frames[n]));
    ExitDelivers(p, run[i - 1]);
  }

  // ---------------------------------------------------------------- whole runs

  /** qinterpRun after callStaticMethod: a remaining operand becomes *varret. */
  datatype Outcome = Outcome(stack: seq<Value>, varret: Option<Value>)

  function FinishRun(s: State): Outcome {
    if s.stack == [] then Outcome([], None)
    else Outcome(s.stack[..|s.stack| - 1], Some(s.stack[|s.stack| - 1]))
  }

  lemma StartSound(p: Program, m: nat)
    requires m < |p.methods| && !p.methods[m].isnative
    ensures Sound(p, Start(p, m))
  {
    StartShape(p, m);
  }

  /** A finished state of a run of method m: one operand if m returned a value or
      an exception escaped, none otherwise. */
  predicate Finished(p: Program, m: nat, s: State)
    requires m < |p.methods|
  {
    && s.mode.Returning?
    && |s.stack| == if Delivers(p.methods[m], s.mode.err) then 1 else 0
  }

  lemma {:induction false} RunFinishes(p: Program, m: nat, run: seq<State>, i: nat)
    requires m < |p.methods| && !p.methods[m].isnative
    requires IsRun(p, run) && RunPopsWithin(p, run) && run[0] == Start(p, m) && i < |run|
    ensures run[i].frames == [] ==> Finished(p, m, run[i])
  {
    hide Enabled, Next, Sound, PopsWithin, ExitFrame, StepsAbove;
    StartSound(p, m);
    if i > 0 && run[i].frames == [] {
      RunFinishes(p, m, run, i - 1);
      if run[i - 1].frames == [] {
        var c := StepOf(p, run, i - 1);
      } else {
        LastFrame(p, m, run, i);
      }
    }
  }

  /** The bottom frame's exit ends the run. */
  lemma LastFrame(p: Program, m: nat, run: seq<State>, i: nat)
    requires m < |p.methods| && !p.methods[m].isnative
    requires IsRun(p, run) && RunPopsWithin(p, run) && run[0] == Start(p, m) && 0 < i < |run|
    requires run[i].frames == [] && run[i - 1].frames != []
    ensures Finished(p, m, run[i])
  {
    hide Enabled, Next, Sound, PopsWithin, ExitFrame, StepsAbove, Step;
    StartSound(p, m);
    forall k | 0 <= k < i
      ensures |run[k].frames| > 0
    {
      FramesLast(p, run, k, i - 1);
    }
    CalleeReturns(p, run, i, 0, 0);
    ExitDelivers(p, run[i - 1]);
  }

  /** Once the frames are gone they stay gone. */
  lemma {:induction false} FramesLast(p: Program, run: seq<State>, k: nat, i: nat)
    requires IsRun(p, run) && k <= i < |run| && run[i].frames != []
    requires RunPopsWithin(p, run) && Sound(p, run[0])
    ensures run[k].frames != []
  {
    hide Enabled, Next, Shape, Heights, PopsWithin;
    if k < i {
      var c := StepOf(p, run, i - 1);
      RunSound(p, run, i - 1);
      if run[i - 1].frames == [] {
        NoFrames(p, run[i - 1], c);
      }
      FramesLast(p, run, k, i - 1);
    }
  }

  lemma NoFrames(p: Program, s: State, c: Choice)
    requires Sound(p, s) && s.frames == []
    ensures Step(p, s, c) == s
  {
  }

  /** Whole-run cleanliness: when a run of a bytecode method returns to
      qinterpRun, no operand is left after *varret is taken, and *varret is
      written iff the method returned a value normally or an exception escaped. */
  lemma WholeRunIsClean(p: Program, m: nat, run: seq<State>, i: nat)
    requires m < |p.methods| && !p.methods[m].isnative
    requires IsRun(p, run) && RunPopsWithin(p, run) && run[0] == Start(p, m) && i < |run|
    requires run[i].frames == []
    ensures run[i].mode.Returning?
    ensures FinishRun(run[i]).stack == []
    ensures FinishRun(run[i]).varret.Some? <==> Delivers(p.methods[m], run[i].mode.err)
  {
    hide IsRun, RunPopsWithin;
    RunFinishes(p, m, run, i);
  }

  // ---------------------------------------------------------------- thrown values

  /** 1 + index of the innermost frame with a catching block; 0 when there is none. */
  function Catcher(frames: seq<Frame>): (n: nat)
    ensures n <= |frames|
    ensures n > 0 ==> Handler(frames[n - 1].blocks) > 0
    ensures forall k :: n <= k < |frames| ==> Handler(frames[k].blocks) == 0
  {
    if frames == [] then 0
    else if Handler(frames[|frames| - 1].blocks) > 0 then |frames|
    else Catcher(frames[..|frames| - 1])
  }

  /** The block stacks of all frames, outermost first. */
  function AllBlocks(frames: seq<Frame>): seq<Block> {
    if frames == [] then [] else AllBlocks(frames[..|frames| - 1]) + frames[|frames| - 1].blocks
  }

  lemma {:induction false} HandlerOfConcat(a: seq<Block>, b: seq<Block>)
    ensures Handler(a + b) == if Handler(b) > 0 then |a| + Handler(b) else Handler(a)
  {
    if b == [] {
      assert a + b == a;
    } else {
      assert (a + b)[..|a + b| - 1] == a + b[..|b| - 1];
      HandlerOfConcat(a, b[..|b| - 1]);
    }
  }

  /** The catching frame and block are the ones a single search through the
      concatenated block stacks finds. */
  lemma {:induction false} CatcherIsSearch(frames: seq<Frame>)
    ensures var k := Catcher(frames);
            Handler(AllBlocks(frames)) ==
              if k == 0 then 0 else |AllBlocks(frames[..k - 1])| + Handler(frames[k - 1].blocks)
  {
    if frames != [] {
      var n := |frames| - 1;
      HandlerOfConcat(AllBlocks(frames[..n]), frames[n].blocks);
      CatcherIsSearch(frames[..n]);
      var k := Catcher(frames);
      if 0 < k <= n {
        assert frames[..n][..k - 1] == frames[..k - 1];
      }
    }
  }

  /** The frame resumed at its innermost catching block: inner blocks and their
      locals gone, the pc at the catch target, no error. */
  function Resumed(p: Program, f: Frame): Frame
    requires FrameShape(p, f) && Handler(f.blocks) > 0
  {
    var n := Handler(f.blocks);
    Unwound(p, f, n).(pc := f.blocks[n - 1].catchpc, err := NoError)
  }

  predicate Shapes(p: Program, frames: seq<Frame>) {
    forall i :: 0 <= i < |frames| ==> FrameShape(p, frames[i])
  }

  /** Where a value v ends up that left the frame above `below`, whose base is b:
      the innermost catching frame resumes with v on top of the operands it had
      when it made its call, or the run is over with v as its exception. */
  function Landing(p: Program, below: seq<Frame>, b: int, st: seq<Value>, v: Value): State
    requires Shapes(p, below)
  {
    var k := Catcher(below);
    var kept := Trim(st, if k == |below| then b else Base(p, below[k]));
    if k == 0 then State(kept + [v], [], Returning(Exception))
    else State(kept + [v], below[..k - 1] + [Resumed(p, below[k - 1])], Running)
  }

  /** Steps from a frame that raised an exception, with `below` under it, to the landing. */
  function LandingSteps(below: seq<Frame>): (n: nat)
    ensures n > 0
  {
    var k := Catcher(below);
    if k == 0 then 2 * |below| + 1 else 2 * (|below| + 1 - k)
  }

  function Callers(s: State): seq<Frame>
    requires s.frames != []
  {
    s.frames[..|s.frames| - 1]
  }

  /** The top frame is about to exit with exception v. */
  predicate Raised(p: Program, s: State, v: Value) {
    Sound(p, s) && HasCode(p, s) && Top(s).err == Exception && Top(s).retval == v
  }

  lemma RaisedExits(p: Program, s: State, v: Value, c: Choice)
    requires Raised(p, s, v)
    ensures Step(p, s, c) == State(s.stack[..Base(p, Top(s))] + [v], Callers(s), Returning(Exception))
    ensures Sound(p, Step(p, s, c))
  {
    hide Shape, Heights;
    ExitDelivers(p, s);
    TopReach(p, s);
    ExitBelow(p, s, |s.frames| - 1, Base(p, Top(s)));
  }

  /** The caller's side: resume at its handler, or raise in turn. */
  lemma CallerCatches(p: Program, s: State, v: Value, c: Choice)
    requires Sound(p, s) && s.mode == Returning(Exception) && s.frames != []
    requires s.stack != [] && s.stack[|s.stack| - 1] == v
    ensures var t := Step(p, s, c);
            if Handler(Top(s).blocks) > 0 then
              FrameShape(p, Top(s)) && t == State(s.stack, Callers(s) + [Resumed(p, Top(s))], Running)
            else
              Raised(p, t, v) && Callers(t) == Callers(s) && SameCall(Top(s), Top(t))
              && t.stack == s.stack[..|s.stack| - 1]
  {
    hide Heights;
    TopReach(p, s);
    GetCatchFinds(p, Top(s));
    DeliverBelow(p, s, |s.frames| - 1, Base(p, Top(s)));
  }

  lemma ShapesOf(p: Program, s: State)
    requires Sound(p, s) && s.frames != []
    ensures Shapes(p, Callers(s)) && FrameShape(p, Top(s))
    ensures Callers(s) != [] ==> Base(p, s.frames[|s.frames| - 2]) <= Base(p, Top(s))
  {
  }

  lemma TrimTwice<T>(st: seq<T>, b: int, c: int)
    requires 0 <= c <= b
    ensures Trim(Trim(st, b), c) == Trim(st, c)
  {
  }

  lemma CatcherPasses(below: seq<Frame>, f: Frame)
    ensures Catcher(below + [f]) == if Handler(f.blocks) == 0 then Catcher(below) else |below| + 1
  {
    assert (below + [f])[..|below|] == below;
  }

  /** A frame without a handler changes neither where the value lands nor how. */
  lemma LandingPasses(p: Program, below: seq<Frame>, f: Frame, b: int, st: seq<Value>, v: Value)
    requires Shapes(p, below + [f]) && Handler(f.blocks) == 0
    requires forall i :: 0 <= i <= |below| ==> 0 <= Base(p, (below + [f])[i]) <= b
    ensures Shapes(p, below)
    ensures Landing(p, below + [f], b, st, v) == Landing(p, below, Base(p, f), Trim(st, b), v)
    ensures LandingSteps(below + [f]) == LandingSteps(below) + 2
  {
    hide Resumed, Handler, Trim, Catcher;
    var all, k := below + [f], Catcher(below);
    assert forall i :: 0 <= i < |below| ==> below[i] == all[i];
    CatcherPasses(below, f);
    TrimTwice(st, b, Base(p, all[k]));
    if k > 0 {
      assert all[..k - 1] == below[..k - 1];
    }
  }

  /** The frame just below has the handler. */
  lemma LandingStops(p: Program, below: seq<Frame>, f: Frame, b: int, st: seq<Value>, v: Value)
    requires Shapes(p, below + [f]) && Handler(f.blocks) > 0
    ensures FrameShape(p, f)
    ensures Landing(p, below + [f], b, st, v) == State(Trim(st, b) + [v], below + [Resumed(p, f)], Running)
    ensures LandingSteps(below + [f]) == 2
  {
    hide Resumed, Handler, Trim, Catcher;
    CatcherPasses(below, f);
    assert f == (below + [f])[|below|];
  }

  lemma LandingOutside(p: Program, b: int, st: seq<Value>, v: Value)
    ensures Landing(p, [], b, st, v) == State(Trim(st, b) + [v], [], Returning(Exception))
    ensures LandingSteps([]) == 1
  {
  }

  lemma BasesBelow(p: Program, s: State)
    requires Sound(p, s) && s.frames != []
    ensures Shapes(p, Callers(s))
    ensures forall i :: 0 <= i < |Callers(s)| ==> 0 <= Base(p, Callers(s)[i]) <= Base(p, Top(s))
    ensures Trim(s.stack, Base(p, Top(s))) == s.stack[..Base(p, Top(s))]
  {
  }

  lemma {:induction false} Propagates(p: Program, run: seq<State>, v: Value)
    requires IsRun(p, run) && Raised(p, run[0], v)
    requires |run| == 1 + LandingSteps(Callers(run[0]))
    ensures Shapes(p, Callers(run[0]))
    ensures run[|run| - 1] == Landing(p, Callers(run[0]), Base(p, Top(run[0])), run[0].stack, v)
    decreases |run|
  {
    hide Step, Enabled, Next, Shape, Heights, Resumed, Landing, LandingSteps, Trim, Handler;
    var s := run[0];
    var b := Base(p, Top(s));
    var c0 := StepOf(p, run, 0);
    RaisedExits(p, s, v, c0);
    BasesBelow(p, s);
    LandingOutside(p, b, s.stack, v);
    if |s.frames| > 1 {
      var t := run[1];
      assert Callers(s) == Callers(t) + [Top(t)];
      if Handler(Top(t).blocks) > 0 {
        LandingStops(p, Callers(t), Top(t), b, s.stack, v);
      } else {
        LandingPasses(p, Callers(t), Top(t), b, s.stack, v);
      }
      var c1 := StepOf(p, run, 1);
      CallerCatches(p, t, v, c1);
      if Handler(Top(t).blocks) == 0 {
        TailRun(p, run, 2);
        Propagates(p, run[2..], v);
      }
    }
  }

  /** Where the value v thrown by the current instruction ends up. */
  function ThrowTarget(p: Program, s: State, v: Value): State
    requires Sound(p, s) && s.frames != []
  {
    ShapesOf(p, s);
    if Handler(Top(s).blocks) > 0 then State(s.stack, Callers(s) + [Resumed(p, Top(s))], Running)
    else Landing(p, Callers(s), Base(p, Top(s)), s.stack, v)
  }

  function ThrowSteps(s: State): nat
    requires s.frames != []
  {
    if Handler(Top(s).blocks) > 0 then 1 else 1 + LandingSteps(Callers(s))
  }

  lemma ThrowLocal(p: Program, st: seq<Value>, f: Frame, v: Value, c: Choice)
    requires FrameShape(p, f) && st != [] && st[|st| - 1] == v && !v.Pointer?
    ensures ExecThrow(st, f, c) ==
              if Handler(f.blocks) > 0 then Local(st, Resumed(p, f))
              else Local(st, Unwound(p, f, 0).(retval := v, pc := -1, err := Exception))
  {
    GetCatchFinds(p, f);
  }

  /** THROW of a value that is not a pointer, in its own frame. */
  lemma ThrowStep(p: Program, s: State, v: Value, c: Choice)
    requires Sound(p, s) && PopsWithin(p, s) && Enabled(p, s, c)
    requires Executes(p, s) && ActionOf(Current(p, s).value.op).Throw?
    requires s.stack != [] && s.stack[|s.stack| - 1] == v && !v.Pointer?
    ensures var t := Step(p, s, c);
            if Handler(Top(s).blocks) > 0 then t == ThrowTarget(p, s, v)
            else
              && Raised(p, t, v) && SameCall(Top(s), Top(t))
              && Callers(t) == Callers(s) && t.stack == s.stack
  {
    hide Shape, Heights, Landing, PopsWithin, Enabled, StepsAbove, ExecThrow;
    TopReach(p, s);
    StepSound(p, s, c);
    AdvancedBelow(p, s, |s.frames| - 1, Base(p, Top(s)));
    var a := Advanced(p, s);
    TopReach(p, a);
    ThrowLocal(p, a.stack, Top(a), v, c);
  }

  /** Exception unwinding.  Every run from a THROW of a non-pointer value that is
      ThrowSteps long ends at ThrowTarget: the search through the block stacks of
      all active frames, innermost first, decides where. */
  lemma ThrowUnwinds(p: Program, run: seq<State>, v: Value)
    requires IsRun(p, run) && Sound(p, run[0]) && PopsWithin(p, run[0])
    requires Executes(p, run[0]) && ActionOf(Current(p, run[0]).value.op).Throw?
    requires run[0].stack != [] && run[0].stack[|run[0].stack| - 1] == v && !v.Pointer?
    requires |run| == 1 + ThrowSteps(run[0])
    ensures run[|run| - 1] == ThrowTarget(p, run[0], v)
  {
    hide Step, Enabled, Next, Shape, Heights, Landing, LandingSteps, Resumed, PopsWithin, Handler, FrameShape;
    var s := run[0];
    var c := StepOf(p, run, 0);
    ThrowStep(p, s, v, c);
    if Handler(Top(s).blocks) == 0 {
      TailRun(p, run, 1);
      Propagates(p, run[1..], v);
    }
  }
}
