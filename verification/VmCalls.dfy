/**
  Calls, seen from the caller: whatever a callee does, the frames below it and
  the operands below its base are untouched, and when it returns the caller finds
  its arguments replaced by at most one value.
 */
module VmCalls {

  import opened VmCode
  import opened VmMachine
  import opened VmFrames

  // ---------------------------------------------------------------- operand heights

  /** Frame bases grow with depth and the stack reaches the last of them; a call
      that returns an exception has left it on top. */
  predicate Heights(p: Program, s: State)
    requires Shape(p, s)
  {
    && (forall i, j :: 0 <= i < j < |s.frames| ==> Base(p, s.frames[i]) <= Base(p, s.frames[j]))
    && (s.frames != [] ==> Base(p, Top(s)) <= |s.stack|)
    && (s.mode == Returning(Exception) ==>
          1 + (if s.frames == [] then 0 else Base(p, Top(s))) <= |s.stack|)
  }

  predicate Sound(p: Program, s: State) {
    Shape(p, s) && Heights(p, s)
  }

  /** The lowest b operands are untouched. */
  predicate Below(st: seq<Value>, st': seq<Value>, b: int) {
    0 <= b <= |st| && b <= |st'| && st'[..b] == st[..b]
  }

  lemma ExecuteBelow(d: Decoded, st: seq<Value>, f: Frame, c: Choice, b: int)
    requires !IsCall(ActionOf(d.op)) && 0 <= b && b + Needs(ActionOf(d.op)) <= |st|
    ensures var r := Execute(d, st, f, c);
            && r != Bad(Underflow)
            && (r.Local? ==> Below(st, r.stack, b))
  {
  }

  /** What a step may do to a frame prefix and a stack prefix that frame n owns. */
  predicate StepsAbove(p: Program, s: State, t: State, n: nat, b: int)
    requires n < |s.frames|
  {
    && n <= |t.frames|
    && t.frames[..n] == s.frames[..n]
    && Below(s.stack, t.stack, b)
    && (if |t.frames| > n then SameCall(s.frames[n], t.frames[n])
        else HasCode(p, s) && |s.frames| == n + 1 && t == ExitFrame(p, s))
  }

  /** The stack prefix of frame n is at most its base. */
  predicate Owns(p: Program, s: State, n: nat, b: int)
    requires Sound(p, s) && n < |s.frames|
  {
    0 <= b <= Base(p, s.frames[n])
  }

  lemma OwnsReach(p: Program, s: State, n: nat, b: int)
    requires Sound(p, s) && n < |s.frames| && Owns(p, s, n, b)
    ensures b <= |s.stack| && Below(s.stack, s.stack, b)
  {
  }

  lemma TopReach(p: Program, s: State)
    requires Sound(p, s) && s.frames != []
    ensures FrameShape(p, Top(s)) && 0 <= Base(p, Top(s)) <= |s.stack|
    ensures Owns(p, s, |s.frames| - 1, Base(p, Top(s)))
  {
  }

  lemma FaultBelow(p: Program, s: State, kind: FaultKind, n: nat, b: int)
    requires Sound(p, s) && n < |s.frames| && Owns(p, s, n, b)
    ensures Sound(p, s.(mode := Fault(kind))) && StepsAbove(p, s, s.(mode := Fault(kind)), n, b)
  {
  }

  lemma ExitBelow(p: Program, s: State, n: nat, b: int)
    requires Sound(p, s) && HasCode(p, s) && Exits(p, s)
    requires n < |s.frames| && Owns(p, s, n, b)
    ensures Sound(p, ExitFrame(p, s)) && StepsAbove(p, s, ExitFrame(p, s), n, b)
  {
    var t := ExitFrame(p, s);
    assert FrameShape(p, Top(s));
    assert forall i :: 0 <= i < |t.frames| ==> t.frames[i] == s.frames[i];
  }

  lemma DeliverBelow(p: Program, s: State, n: nat, b: int)
    requires Sound(p, s) && s.mode.Returning? && n < |s.frames| && Owns(p, s, n, b)
    ensures Sound(p, Deliver(s, s.mode.err))
    ensures Deliver(s, s.mode.err).mode.Running?
    ensures StepsAbove(p, s, Deliver(s, s.mode.err), n, b)
  {
    DeliverShape(p, s, s.mode.err);
    GetCatchShape(p, Top(s));
  }

  lemma SetTopBelow(p: Program, s: State, f: Frame, st: seq<Value>, n: nat, b: int)
    requires Sound(p, s) && s.mode.Running? && n < |s.frames| && Owns(p, s, n, b)
    requires FrameShape(p, f) && SameCall(Top(s), f) && Below(s.stack, st, Base(p, Top(s)))
    ensures Sound(p, SetTop(s, f).(stack := st))
    ensures StepsAbove(p, s, SetTop(s, f).(stack := st), n, b)
  {
    var t := SetTop(s, f).(stack := st);
    assert forall i :: 0 <= i < |s.frames| ==> Base(p, t.frames[i]) == Base(p, s.frames[i]);
    assert st[..b] == st[..Base(p, Top(s))][..b];
    assert s.stack[..b] == s.stack[..Base(p, Top(s))][..b];
  }

  lemma ExecuteLocalBelow(p: Program, s: State, d: Decoded, c: Choice, n: nat, b: int)
    requires Sound(p, s) && s.mode.Running? && !IsCall(ActionOf(d.op))
    requires n < |s.frames| && Owns(p, s, n, b)
    requires Needs(ActionOf(d.op)) <= |s.stack| - Base(p, Top(s))
    ensures Sound(p, ExecuteLocal(s, d, c)) && StepsAbove(p, s, ExecuteLocal(s, d, c), n, b)
    ensures ExecuteLocal(s, d, c).mode != Fault(Underflow) && |ExecuteLocal(s, d, c).frames| == |s.frames|
  {
    hide Execute;
    ExecuteShape(p, d, s.stack, Top(s), c);
    ExecuteBelow(d, s.stack, Top(s), c, Base(p, Top(s)));
    match Execute(d, s.stack, Top(s), c) {
      case Local(st, f) => SetTopBelow(p, s, f, st, n, b);
      case Bad(kind) => FaultBelow(p, s, kind, n, b);
    }
  }

  /** A call that returns at once: the lookup failed, or the callee is native. */
  lemma ReturnBelow(p: Program, s: State, st: seq<Value>, e: Err, n: nat, b: int)
    requires Sound(p, s) && s.mode.Running? && Top(s).err == NoError && e != Exception
    requires n < |s.frames| && Owns(p, s, n, b) && Below(s.stack, st, Base(p, Top(s)))
    ensures Sound(p, State(st, s.frames, Returning(e)))
    ensures StepsAbove(p, s, State(st, s.frames, Returning(e)), n, b)
  {
    assert st[..b] == st[..Base(p, Top(s))][..b];
    assert s.stack[..b] == s.stack[..Base(p, Top(s))][..b];
  }

  /** A call of a bytecode method. */
  lemma PushBelow(p: Program, s: State, m: nat, n: nat, b: int)
    requires Sound(p, s) && s.mode.Running? && Top(s).err == NoError
    requires n < |s.frames| && Owns(p, s, n, b)
    requires m < |p.methods| && !p.methods[m].isnative
    requires p.methods[m].sig.argc <= |s.stack| - Base(p, Top(s))
    ensures var argc := p.methods[m].sig.argc;
            var t := State(s.stack[..|s.stack| - argc], s.frames + [NewFrame(m, argc, |s.stack|)], Running);
            Sound(p, t) && StepsAbove(p, s, t, n, b)
  {
    var argc := p.methods[m].sig.argc;
    NewFrameShape(p, m, |s.stack|);
    var t := State(s.stack[..|s.stack| - argc], s.frames + [NewFrame(m, argc, |s.stack|)], Running);
    assert Base(p, Top(t)) == |t.stack|;
    assert t.stack[..b] == s.stack[..b];
  }

  lemma EnterCallBelow(p: Program, s: State, d: Decoded, c: Choice, n: nat, b: int)
    requires Sound(p, s) && s.mode.Running? && Top(s).err == NoError && IsCall(ActionOf(d.op))
    requires n < |s.frames| && Owns(p, s, n, b)
    requires CallSite(MethodOf(p, Top(s)), d).Some? && Possible(p, MethodOf(p, Top(s)), d, c)
    requires Demand(MethodOf(p, Top(s)), d) <= |s.stack| - Base(p, Top(s))
    ensures Sound(p, EnterCall(p, s, d, c)) && StepsAbove(p, s, EnterCall(p, s, d, c), n, b)
    ensures EnterCall(p, s, d, c).mode == Fault(Underflow) ==> ActionOf(d.op).Call? && d.arg2 < 0
    ensures |EnterCall(p, s, d, c).frames| >= |s.frames|
  {
    hide Shape, Heights, StepsAbove;
    TopReach(p, s);
    var st, base := s.stack, Base(p, Top(s));
    if ActionOf(d.op).Call? && !(0 <= d.arg2 < |st|) {
      FaultBelow(p, s, Underflow, n, b);
    } else if c.callee.Found? {
      var m := p.methods[c.callee.m];
      var rest := st[..|st| - m.sig.argc];
      if m.isnative {
        ReturnBelow(p, s, if m.hasretval then rest + [c.value] else rest, c.native, n, b);
      } else {
        PushBelow(p, s, c.callee.m, n, b);
      }
    } else if c.callee.NoClass? {
      ReturnBelow(p, s, st, MainClassNotFound, n, b);
    } else {
      ReturnBelow(p, s, EnterCall(p, s, d, c).stack, UnknownMethod, n, b);
    }
  }

  lemma AdvancedBelow(p: Program, s: State, n: nat, b: int)
    requires Sound(p, s) && Executes(p, s) && n < |s.frames| && Owns(p, s, n, b)
    ensures var t := Advanced(p, s);
            && Sound(p, t) && StepsAbove(p, s, t, n, b)
            && |t.frames| == |s.frames| && Owns(p, t, n, b)
            && t.mode == Running && t.stack == s.stack
            && Top(t).err == NoError && SameCall(Top(s), Top(t))
  {
    TopReach(p, s);
    AdvancedShape(p, s);
    SetTopBelow(p, s, Top(Advanced(p, s)), s.stack, n, b);
  }

  lemma StepsAboveTransitive(p: Program, s: State, t: State, u: State, n: nat, b: int)
    requires n < |s.frames| && n < |t.frames| && n < |u.frames|
    requires StepsAbove(p, s, t, n, b) && StepsAbove(p, t, u, n, b)
    ensures StepsAbove(p, s, u, n, b)
  {
  }

  lemma ExecutesBelow(p: Program, s: State, c: Choice, n: nat, b: int)
    requires Sound(p, s) && PopsWithin(p, s) && Enabled(p, s, c) && Executes(p, s)
    requires n < |s.frames| && Owns(p, s, n, b)
    ensures Sound(p, Step(p, s, c)) && StepsAbove(p, s, Step(p, s, c), n, b)
  {
    hide ExecuteLocal, EnterCall, ExitFrame, Shape, Heights, Advanced, StepsAbove;
    var d, a, t := Current(p, s).value, Advanced(p, s), Step(p, s, c);
    AdvancedBelow(p, s, n, b);
    if IsCall(ActionOf(d.op)) && CallSite(MethodOf(p, Top(s)), d).None? {
      FaultBelow(p, s, BadConstant, n, b);
    } else {
      if IsCall(ActionOf(d.op)) {
        EnterCallBelow(p, a, d, c, n, b);
      } else {
        ExecuteLocalBelow(p, a, d, c, n, b);
      }
      StepsAboveTransitive(p, s, a, t, n, b);
    }
  }

  /** One step, seen from frame n: the frames below it and the operands it does
      not own stay, and the frame count drops to n only when frame n exits. */
  lemma StepBelow(p: Program, s: State, c: Choice, n: nat, b: int)
    requires Sound(p, s) && PopsWithin(p, s) && Enabled(p, s, c)
    requires n < |s.frames| && Owns(p, s, n, b)
    ensures Sound(p, Step(p, s, c)) && StepsAbove(p, s, Step(p, s, c), n, b)
  {
    hide ExecuteLocal, EnterCall, ExitFrame, Deliver, Shape, Heights, Advanced, StepsAbove;
    if s.mode.Returning? {
      DeliverBelow(p, s, n, b);
    } else if HasCode(p, s) && Exits(p, s) {
      ExitBelow(p, s, n, b);
    } else if Executes(p, s) {
      ExecutesBelow(p, s, c, n, b);
    } else {
      FaultBelow(p, s, Step(p, s, c).mode.kind, n, b);
    }
  }
}
