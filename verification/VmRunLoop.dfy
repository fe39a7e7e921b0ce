/**
  Running a program on the interpreter's objects, for any number of steps and any
  choices the environment makes.
 */
module VmRunLoop {

  import opened Common
  import opened VmMachine
  import opened VmFrames
  import opened VmRuns
  import opened VmControl
  import opened VmVerifier
  import opened VmLaws
  import opened VmInterp

  /** The state after the choices cs. */
  function Exec(p: Program, s: State, cs: seq<Choice>): State {
    if cs == [] then s
    else
      var n := |cs| - 1;
      Step(p, Exec(p, s, cs[..n]), cs[n])
  }

  /** Every choice is one the machine can face where it is made. */
  predicate Allowed(p: Program, s: State, cs: seq<Choice>) {
    forall k :: 0 <= k < |cs| ==> Enabled(p, Exec(p, s, cs[..k]), cs[k])
  }

  /** No state on the way is a fault. */
  predicate NoFault(p: Program, s: State, cs: seq<Choice>) {
    forall k :: 0 <= k <= |cs| ==> !Exec(p, s, cs[..k]).mode.Fault?
  }

  /** The most frames ever active during a run. */
  function Depth(p: Program, s: State, cs: seq<Choice>): nat {
    if cs == [] then |s.frames|
    else
      var n := |cs| - 1;
      Higher(Depth(p, s, cs[..n]), Reached(p, Exec(p, s, cs[..n]), cs[n]))
  }

  // ---------------------------------------------------------------- runs by their choices

  lemma ExecNone(p: Program, s: State)
    ensures Exec(p, s, []) == s && Depth(p, s, []) == |s.frames|
  {
  }

  lemma ExecNext(p: Program, s: State, cs: seq<Choice>, k: nat)
    requires k < |cs|
    ensures Exec(p, s, cs[..k + 1]) == Step(p, Exec(p, s, cs[..k]), cs[k])
    ensures Depth(p, s, cs[..k + 1]) == Higher(Depth(p, s, cs[..k]), Reached(p, Exec(p, s, cs[..k]), cs[k]))
  {
    hide Step, Reached;
    assert cs[..k + 1][..k] == cs[..k];
  }

  lemma {:induction false} ExecShape(p: Program, s: State, cs: seq<Choice>, k: nat)
    requires Shape(p, s) && k <= |cs|
    ensures Shape(p, Exec(p, s, cs[..k]))
  {
    hide Step, Shape;
    if k > 0 {
      ExecShape(p, s, cs, k - 1);
      ExecNext(p, s, cs, k - 1);
      StepShape(p, Exec(p, s, cs[..k - 1]), cs[k - 1]);
    }
  }

  lemma {:induction false} DepthPositive(p: Program, s: State, cs: seq<Choice>)
    ensures Depth(p, s, cs) >= |s.frames|
  {
    if cs != [] {
      DepthPositive(p, s, cs[..|cs| - 1]);
    }
  }

  /** The states a sequence of choices leads through. */
  function Trace(p: Program, s: State, cs: seq<Choice>): seq<State> {
    seq(|cs| + 1, k requires 0 <= k <= |cs| => Exec(p, s, cs[..k]))
  }

  lemma TraceIsRun(p: Program, s: State, cs: seq<Choice>)
    requires Allowed(p, s, cs)
    ensures IsRun(p, Trace(p, s, cs)) && Trace(p, s, cs)[0] == s
  {
    hide Step, Enabled;
    var run := Trace(p, s, cs);
    assert cs[..0] == [];
    forall i | 0 <= i < |run| - 1
      ensures Next(p, run[i], run[i + 1])
    {
      assert cs[..i + 1][..i] == cs[..i];
      assert Enabled(p, run[i], cs[i]) && run[i + 1] == Step(p, run[i], cs[i]);
    }
  }

  /** However the choices fall, a started method that has returned leaves a clean
      interpreter, if no step popped below its frame's base. */
  lemma ExecFinishes(p: Program, m: nat, cs: seq<Choice>)
    requires m < |p.methods| && !p.methods[m].isnative
    requires Allowed(p, Start(p, m), cs) && Exec(p, Start(p, m), cs).frames == []
    requires RunPopsWithin(p, Trace(p, Start(p, m), cs))
    ensures var t := Exec(p, Start(p, m), cs);
            && t.mode.Returning? && FinishRun(t).stack == []
            && (FinishRun(t).varret.Some? <==> Delivers(p.methods[m], t.mode.err))
  {
    hide IsRun, RunPopsWithin, Exec, FinishRun, Delivers, Start;
    TraceIsRun(p, Start(p, m), cs);
    assert cs[..|cs|] == cs;
    WholeRunIsClean(p, m, Trace(p, Start(p, m), cs), |cs|);
  }

  /** At the k-th state the started method returns v, or v is thrown past every frame. */
  predicate GivesAt(p: Program, m: nat, cs: seq<Choice>, k: nat, v: Value)
    requires m < |p.methods| && k <= |cs|
  {
    var s := Exec(p, Start(p, m), cs[..k]);
    || (p.methods[m].hasretval && |s.frames| == 1 && Answers(p, s, v) && k + 2 <= |cs|)
    || (Throws(p, s, v) && Catcher(s.frames) == 0 && k + ThrowSteps(s) <= |cs|)
  }

  /** The run's value is v. */
  ghost predicate Gives(p: Program, m: nat, cs: seq<Choice>, v: Value)
    requires m < |p.methods|
  {
    exists k :: 0 <= k <= |cs| && GivesAt(p, m, cs, k, v)
  }

  /** A run that is over stays as it is. */
  lemma {:induction false} Over(p: Program, s: State, cs: seq<Choice>, k: nat, n: nat)
    requires k <= n <= |cs| && Exec(p, s, cs[..k]).frames == [] && Exec(p, s, cs[..k]).mode.Returning?
    ensures Exec(p, s, cs[..n]) == Exec(p, s, cs[..k])
  {
    hide Exec;
    if k < n {
      Over(p, s, cs, k, n - 1);
      ExecNext(p, s, cs, n - 1);
    }
  }

  /** Whatever gives a run its value, at its end that value is the only operand left. */
  lemma GivenIsLeft(p: Program, m: nat, cs: seq<Choice>, v: Value)
    requires m < |p.methods| && !p.methods[m].isnative
    requires Allowed(p, Start(p, m), cs) && RunPopsWithin(p, Trace(p, Start(p, m), cs)) && Gives(p, m, cs, v)
    ensures Exec(p, Start(p, m), cs).frames == [] && FinishRun(Exec(p, Start(p, m), cs)) == Outcome([], Some(v))
  {
    hide Exec, Step, Enabled, IsRun, RunPopsWithin, Allowed, Answers, Catcher, ThrowSteps, Start, Current;
    var k :| 0 <= k <= |cs| && GivesAt(p, m, cs, k, v);
    var s0 := Start(p, m);
    var run, s := Trace(p, s0, cs), Exec(p, s0, cs[..k]);
    TraceIsRun(p, s0, cs);
    assert cs[..|cs|] == cs && run[k] == s;
    if p.methods[m].hasretval && |s.frames| == 1 && Answers(p, s, v) && k + 2 <= |cs| {
      RunAnswers(p, m, run, k, v);
      Over(p, s0, cs, k + 2, |cs|);
    } else {
      RunThrows(p, m, run, k, v);
      Over(p, s0, cs, k + ThrowSteps(s), |cs|);
    }
  }

  /** The same of every value. */
  lemma OnlyGiven(p: Program, m: nat, cs: seq<Choice>)
    requires m < |p.methods| && !p.methods[m].isnative
    requires Allowed(p, Start(p, m), cs) && RunPopsWithin(p, Trace(p, Start(p, m), cs))
    ensures forall v :: Gives(p, m, cs, v) ==> FinishRun(Exec(p, Start(p, m), cs)).varret == Some(v)
  {
    hide Exec, Allowed, RunPopsWithin, Gives, Start, FinishRun, Trace;
    forall v | Gives(p, m, cs, v)
      ensures FinishRun(Exec(p, Start(p, m), cs)).varret == Some(v)
    {
      GivenIsLeft(p, m, cs, v);
    }
  }

  /** An accepted program neither faults nor pops below a base. */
  lemma AcceptedTrace(p: Program, l: Listing, cert: Certificate, m: nat, cs: seq<Choice>)
    requires Accepts(p, l, cert) && m < |p.methods| && !p.methods[m].isnative
    requires Allowed(p, Start(p, m), cs)
    ensures NoFault(p, Start(p, m), cs) && RunPopsWithin(p, Trace(p, Start(p, m), cs))
  {
    hide Accepts, IsRun, RunPopsWithin, Exec, Start;
    var run := Trace(p, Start(p, m), cs);
    TraceIsRun(p, Start(p, m), cs);
    AcceptedNeverPopsBelow(p, l, cert, m, run);
    forall k | 0 <= k <= |cs|
      ensures !Exec(p, Start(p, m), cs[..k]).mode.Fault?
    {
      assert !run[k].mode.Fault?;
    }
  }

  // ---------------------------------------------------------------- runs on the objects

  /** The interpreter's objects follow the small-step machine through every run
      that does not fault, from any state the machine can be in, and the frame pool
      stays intact: its objects number the most frames ever active. */
  method RunSteps(q: Interp, cs: seq<Choice>)
    requires q.Valid() && Shape(q.prog, q.State())
    requires NoFault(q.prog, q.State(), cs)
    modifies q, q.Objects()
    ensures q.Valid() && q.State() == Exec(q.prog, old(q.State()), cs)
    ensures q.peak == Higher(old(q.peak), Depth(q.prog, old(q.State()), cs))
  {
    hide Step, Shape, Exec, Reached, Depth;
    ghost var s0 := q.State();
    assert cs[..0] == [];
    ExecNone(q.prog, s0);
    for i := 0 to |cs|
      invariant q.Valid() && fresh(q.Objects() - old(q.Objects()))
      invariant q.State() == Exec(q.prog, s0, cs[..i])
      invariant q.peak == Higher(old(q.peak), Depth(q.prog, s0, cs[..i]))
    {
      ExecShape(q.prog, s0, cs, i);
      ExecNext(q.prog, s0, cs, i);
      assert !Exec(q.prog, s0, cs[..i + 1]).mode.Fault?;
      q.Step(cs[i]);
    }
    assert cs[..|cs|] == cs;
  }

  /** A new interpreter with the arguments on its stack, and the first call. */
  method BeginRun(p: Program, m: nat, args: seq<Value>) returns (q: Interp)
    requires m < |p.methods| && |args| == p.methods[m].sig.argc
    ensures q.Valid() && fresh(q) && fresh(q.Objects()) && q.prog == p && q.State() == Start(p, m)
    ensures q.peak == |Start(p, m).frames| == 1
  {
    hide NewFrame;
    q := new Interp(p, args);
    q.Prologue(m);
    assert args[..|args| - |args|] == [];
  }

  /** qinterpRun: the arguments are on the stack, the method is called, and when the
      call has returned a remaining operand is taken as *varret.  All frames ever
      needed are in the cache then; and if no step popped below its frame's base, no
      operand is left and *varret is written iff the method returned a value or an
      exception escaped, and holds the value returned or thrown. */
  method RunProgram(p: Program, m: nat, args: seq<Value>, cs: seq<Choice>)
    returns (q: Interp, returned: bool, varret: Option<Value>)
    requires m < |p.methods| && !p.methods[m].isnative && |args| == p.methods[m].sig.argc
    requires Allowed(p, Start(p, m), cs) && NoFault(p, Start(p, m), cs)
    ensures q.Valid() && returned == (Exec(p, Start(p, m), cs).frames == [])
    ensures q.peak == Depth(p, Start(p, m), cs)
    ensures returned ==> q.frames == [] && |q.stkframecache| == q.peak
    ensures returned ==> q.mode == Exec(p, Start(p, m), cs).mode
    ensures returned && RunPopsWithin(p, Trace(p, Start(p, m), cs)) ==>
              && q.stack == [] && q.mode.Returning?
              && (varret.Some? <==> Delivers(p.methods[m], q.mode.err))
              && forall v :: Gives(p, m, cs, v) ==> varret == Some(v)
  {
    hide Step, Shape, Exec, Depth, Delivers, Start, RunPopsWithin, Gives;
    q := BeginRun(p, m, args);
    StartShape(p, m);
    RunSteps(q, cs);
    DepthPositive(p, Start(p, m), cs);
    returned, varret := q.frames == [], None;
    if returned {
      varret := q.TakeVarret();
      if RunPopsWithin(p, Trace(p, Start(p, m), cs)) {
        ExecFinishes(p, m, cs);
        OnlyGiven(p, m, cs);
      }
    }
  }

  /** A program with a certificate needs no further condition. */
  method RunAccepted(
    p: Program, ghost l: Listing, ghost cert: Certificate, m: nat, args: seq<Value>, cs: seq<Choice>)
    returns (q: Interp, returned: bool, varret: Option<Value>)
    requires Accepts(p, l, cert)
    requires m < |p.methods| && !p.methods[m].isnative && |args| == p.methods[m].sig.argc
    requires Allowed(p, Start(p, m), cs)
    ensures q.Valid() && returned == (Exec(p, Start(p, m), cs).frames == [])
    ensures q.peak == Depth(p, Start(p, m), cs)
    ensures returned ==> q.stack == [] && q.frames == [] && |q.stkframecache| == q.peak
    ensures returned ==> q.mode == Exec(p, Start(p, m), cs).mode && q.mode.Returning?
    ensures returned ==> (varret.Some? <==> Delivers(p.methods[m], q.mode.err))
    ensures returned ==> forall v :: Gives(p, m, cs, v) ==> varret == Some(v)
  {
    hide Gives, Accepts, Exec, Depth, Delivers, RunPopsWithin, Start, NoFault;
    AcceptedTrace(p, l, cert, m, cs);
    q, returned, varret := RunProgram(p, m, args, cs);
  }
}
