/**
  A bytecode verifier for the jspp machine.  A certificate gives every instruction
  of a method a lower bound on the operand height above the frame's base and on
  the number of open blocks.  `Accepts` checks it one instruction at a time; code
  it accepts never takes an operand below its frame and never faults.
 */
module VmVerifier {

  import opened Common
  import opened VmCode
  import opened VmMachine
  import opened VmFrames
  import opened VmCalls
  import opened VmRuns
  import opened VmControl

  datatype Bound = Bound(height: nat, depth: nat)

  /** Per method, one bound per instruction and one for the end of the code. */
  type Certificate = seq<seq<Bound>>

  predicate Admits(b: Bound, height: int, depth: int) {
    b.height <= height && b.depth <= depth
  }

  // ---------------------------------------------------------------- the checker

  /** Change of the operand height when an instruction that is not a call falls through. */
  function Delta(a: Action): int {
    match a
    case Push(_) => 1
    case Binary(_) => -1
    case Assign => -2
    case Pop => -1
    case Dup => 1
    case CondJump => -1
    case _ => 0
  }

  function DepthAfter(a: Action, depth: nat): nat {
    match a
    case Enter => depth + 1
    case Leave => if depth > 0 then depth - 1 else 0
    case _ => depth
  }

  predicate FallsThrough(a: Action) {
    !a.Jump? && !a.Break? && !a.Continue? && !a.Throw? && !a.ValueReturn? && !a.VoidReturn? && !a.Unknown?
  }

  /** Bounds at an address that may be reached with this height and depth. */
  predicate AdmitsAt(body: seq<Instr>, bounds: seq<Bound>, pc: int, height: int, depth: int)
    requires |bounds| == |body| + 1
  {
    forall k :: 0 <= k <= |body| && Offset(body, k) == pc ==> Admits(bounds[k], height, depth)
  }

  /** A SETBREAK target and the JMP before it: reachable from anywhere in the
      block, so with no operand guaranteed. */
  predicate AdmitsBreak(body: seq<Instr>, bounds: seq<Bound>, pc: int, depth: int)
    requires |bounds| == |body| + 1
  {
    pc != -1 ==> AdmitsAt(body, bounds, pc, 0, depth) && AdmitsAt(body, bounds, pc - 3, 0, depth)
  }

  /** A catch target: only the thrown value is guaranteed. */
  predicate AdmitsCatch(body: seq<Instr>, bounds: seq<Bound>, pc: int, depth: int)
    requires |bounds| == |body| + 1
  {
    pc != -1 ==> AdmitsAt(body, bounds, pc, 1, depth)
  }

  predicate AcceptsCall(p: Program, m: Method, d: Decoded, b: Bound, next: Bound)
  {
    && CallSite(m, d).Some?
    && (ActionOf(d.op).Call? ==> d.arg2 >= 0)
    && forall k :: 0 <= k < |p.methods| && Resolves(CallSite(m, d).value, p.methods[k]) ==>
         Admits(next, b.height - p.methods[k].sig.argc + Ret(p.methods[k]), b.depth)
  }

  predicate AcceptsInstr(p: Program, m: Method, body: seq<Instr>, bounds: seq<Bound>, k: nat)
    requires |bounds| == |body| + 1 && k < |body|
  {
    var d, b := DecodedOf(body, k), bounds[k];
    var a := ActionOf(d.op);
    && !a.Unmodelled?
    && Demand(m, d) <= b.height
    && (if IsCall(a) then AcceptsCall(p, m, d, b, bounds[k + 1])
        else FallsThrough(a) ==> Admits(bounds[k + 1], b.height + Delta(a), DepthAfter(a, b.depth)))
    && (a.Jump? || a.CondJump? ==> AdmitsAt(body, bounds, d.arg1, b.height + Delta(a), b.depth))
    && (a.SetBreak? ==> b.depth > 0 && AdmitsBreak(body, bounds, d.arg1, b.depth))
    && (a.Try? ==> b.depth > 0 && AdmitsCatch(body, bounds, d.arg1, b.depth))
  }

  /** The certificate of one method: entered with an empty operand region inside
      the block that the call opened. */
  predicate AcceptsMethod(p: Program, m: Method, body: seq<Instr>, bounds: seq<Bound>) {
    && |bounds| == |body| + 1
    && Admits(bounds[0], 0, 1)
    && Admits(bounds[|body|], 0, 0)
    && forall k :: 0 <= k < |body| ==> AcceptsInstr(p, m, body, bounds, k)
  }

  ghost predicate Accepts(p: Program, l: Listing, cert: Certificate) {
    && Assembled(p, l) && Targeted(l)
    && |cert| == |l|
    && forall m :: 0 <= m < |l| ==> AcceptsMethod(p, p.methods[m], l[m], cert[m])
  }

  // ---------------------------------------------------------------- the invariant

  /** Whatever a frame may break, continue or unwind to admits what it would find there. */
  predicate BlocksAdmit(body: seq<Instr>, bounds: seq<Bound>, blocks: seq<Block>)
    requires |bounds| == |body| + 1
  {
    forall j :: 0 <= j < |blocks| ==>
      && AdmitsBreak(body, bounds, blocks[j].breakpc, blocks[j].blockcount)
      && AdmitsCatch(body, bounds, blocks[j].catchpc, j + 1)
  }

  /** A frame whose operand region is `height` values high when it runs next. */
  predicate FrameAdmits(body: seq<Instr>, bounds: seq<Bound>, f: Frame, height: int)
    requires |bounds| == |body| + 1
  {
    && BlocksAdmit(body, bounds, f.blocks)
    && (f.err == NoError ==> AdmitsAt(body, bounds, f.pc, height, |f.blocks|))
  }

  /** Height of frame i's operand region when it runs next, if its callee returns
      without an error. */
  function ResumeHeight(p: Program, s: State, i: nat): int
    requires Shape(p, s) && i < |s.frames|
  {
    var b := Base(p, s.frames[i]);
    if i + 1 < |s.frames| then
      Base(p, s.frames[i + 1]) - b + Ret(MethodOf(p, s.frames[i + 1]))
    else
      |s.stack| - b
  }

  /** In mode Returning with an error the top frame will not run at its pc. */
  predicate Resumes(s: State, i: nat) {
    i + 1 < |s.frames| || s.mode.Running? || s.mode == Returning(NoError)
  }

  /** Frame i is admitted wherever it may go next. */
  ghost predicate FrameCertified(p: Program, l: Listing, cert: Certificate, s: State, i: nat)
    requires Accepts(p, l, cert) && Shape(p, s) && i < |s.frames|
  {
    var m := s.frames[i].meth;
    && BlocksAdmit(l[m], cert[m], s.frames[i].blocks)
    && (Resumes(s, i) ==> FrameAdmits(l[m], cert[m], s.frames[i], ResumeHeight(p, s, i)))
  }

  ghost predicate Certified(p: Program, l: Listing, cert: Certificate, s: State)
    requires Accepts(p, l, cert)
  {
    && Sound(p, s) && Controlled(p, l, s) && !s.mode.Fault?
    && forall i :: 0 <= i < |s.frames| ==> FrameCertified(p, l, cert, s, i)
  }

  // ---------------------------------------------------------------- one instruction

  lemma OffsetUnique(body: seq<Instr>, i: nat, j: nat)
    requires i <= |body| && j <= |body| && Offset(body, i) == Offset(body, j)
    ensures i == j
  {
    if i < j {
      OffsetMonotone(body, i, j);
    } else if j < i {
      OffsetMonotone(body, j, i);
    }
  }

  /** A bound on instruction k is a bound at its address. */
  lemma AdmitsOffset(body: seq<Instr>, bounds: seq<Bound>, k: nat, height: int, depth: int)
    requires |bounds| == |body| + 1 && k <= |body| && Admits(bounds[k], height, depth)
    ensures AdmitsAt(body, bounds, Offset(body, k), height, depth)
  {
    hide Offset;
    forall j | 0 <= j <= |body| && Offset(body, j) == Offset(body, k)
      ensures Admits(bounds[j], height, depth)
    {
      OffsetUnique(body, j, k);
    }
  }

  /** The setting of one instruction that is not a call: frame f, its pc already
      moved on, with `height` operands above its base. */
  ghost predicate Ready(p: Program, body: seq<Instr>, bounds: seq<Bound>, k: nat, f: Frame, height: int) {
    && |bounds| == |body| + 1 && k < |body| && WellFormedBody(body) && TargetOk(body, body[k])
    && FrameShape(p, f) && f.err == NoError && f.pc == Offset(body, k + 1)
    && AcceptsInstr(p, MethodOf(p, f), body, bounds, k) && !IsCall(ActionOf(body[k].op))
    && Admits(bounds[k], height, |f.blocks|)
    && BlocksAdmit(body, bounds, f.blocks)
  }

  /** What an accepted instruction leaves: no fault, and a frame that is admitted
      at its new pc with its new height. */
  predicate Leaves(body: seq<Instr>, bounds: seq<Bound>, r: Local, base: int) {
    && |bounds| == |body| + 1
    && r.Local?
    && FrameAdmits(body, bounds, r.frame, |r.stack| - base)
  }

  lemma GetCatchAdmits(p: Program, body: seq<Instr>, bounds: seq<Bound>, f: Frame)
    requires |bounds| == |body| + 1 && FrameShape(p, f) && BlocksAdmit(body, bounds, f.blocks)
    ensures var (g, pc) := GetCatch(f);
            && BlocksAdmit(body, bounds, g.blocks)
            && (pc != -1 ==> forall h :: 1 <= h ==> AdmitsAt(body, bounds, pc, h, |g.blocks|))
  {
    hide Offset, FrameShape;
    GetCatchFinds(p, f);
  }

  lemma ExecThrowAdmits(
    p: Program, body: seq<Instr>, bounds: seq<Bound>, k: nat, st: seq<Value>, f: Frame, base: nat, c: Choice)
    requires Ready(p, body, bounds, k, f, |st| - base) && base < |st|
    ensures Leaves(body, bounds, ExecThrow(st, f, c), base)
  {
    hide FrameShape, AdmitsAt, AcceptsInstr, TargetOk, WellFormedBody;
    GetCatchAdmits(p, body, bounds, f);
    GetCatchShape(p, f);
  }

  lemma BreakAdmits(body: seq<Instr>, bounds: seq<Bound>, f: Frame, height: nat)
    requires |bounds| == |body| + 1 && BlocksAdmit(body, bounds, f.blocks)
    requires GetBreakBlockCount(f) <= |f.blocks| && GetBreak(f) != -1
    ensures AdmitsAt(body, bounds, GetBreak(f), height, |f.blocks|)
    ensures AdmitsAt(body, bounds, GetBreak(f) - 3, height, |f.blocks|)
  {
    hide Offset;
  }

  lemma EnterBlockAdmits(body: seq<Instr>, bounds: seq<Bound>, f: Frame, n: int)
    requires |bounds| == |body| + 1 && BlocksAdmit(body, bounds, f.blocks)
    ensures BlocksAdmit(body, bounds, EnterBlock(f, n).blocks)
  {
    hide AdmitsAt;
  }

  lemma WithBreakAdmits(body: seq<Instr>, bounds: seq<Bound>, f: Frame, pc: int)
    requires |bounds| == |body| + 1 && BlocksAdmit(body, bounds, f.blocks) && f.blocks != []
    requires AdmitsBreak(body, bounds, pc, |f.blocks|)
    ensures BlocksAdmit(body, bounds, WithBreak(f, pc).blocks)
    ensures var g := WithBreak(f, pc); g.pc == f.pc && g.err == f.err && |g.blocks| == |f.blocks|
  {
    hide AdmitsAt;
  }

  lemma WithCatchAdmits(body: seq<Instr>, bounds: seq<Bound>, f: Frame, pc: int)
    requires |bounds| == |body| + 1 && BlocksAdmit(body, bounds, f.blocks) && f.blocks != []
    requires AdmitsCatch(body, bounds, pc, |f.blocks|)
    ensures BlocksAdmit(body, bounds, WithCatch(f, pc).blocks)
    ensures var g := WithCatch(f, pc); g.pc == f.pc && g.err == f.err && |g.blocks| == |f.blocks|
  {
    hide AdmitsAt;
  }

  lemma DeeperBreak(body: seq<Instr>, bounds: seq<Bound>, pc: int, depth: int, deeper: int)
    requires |bounds| == |body| + 1 && depth <= deeper
    ensures AdmitsBreak(body, bounds, pc, depth) ==> AdmitsBreak(body, bounds, pc, deeper)
    ensures AdmitsCatch(body, bounds, pc, depth) ==> AdmitsCatch(body, bounds, pc, deeper)
  {
    hide Offset;
  }

  lemma ExecBlockAdmits(
    p: Program, body: seq<Instr>, bounds: seq<Bound>, k: nat, st: seq<Value>, f: Frame, base: nat, c: Choice)
    requires Ready(p, body, bounds, k, f, |st| - base) && base <= |st|
    requires ActionOf(body[k].op) in {Enter, Leave, SetBreak, Try, Break, Continue}
    ensures Leaves(body, bounds, ExecBlock(DecodedOf(body, k), st, f, c), base)
  {
    hide AdmitsAt, FrameShape, AdmitsBreak, AdmitsCatch, WithBreak, WithCatch, AfterJump, Boundary, Offset;
    var a := ActionOf(body[k].op);
    var b := bounds[k];
    BreakNeverUnwinds(p, f);
    match a
    case Enter =>
      EnterBlockAdmits(body, bounds, f, Arg1(body[k]));
      NextAdmits(p, body, bounds, k, |st| - base, |f.blocks| + 1, f);
    case Leave =>
      NextAdmits(p, body, bounds, k, |st| - base, |LeaveBlock(f).blocks|, f);
    case SetBreak =>
      DeeperBreak(body, bounds, Arg1(body[k]), b.depth, |f.blocks|);
      WithBreakAdmits(body, bounds, f, Arg1(body[k]));
      NextAdmits(p, body, bounds, k, |st| - base, |f.blocks|, f);
    case Try =>
      DeeperBreak(body, bounds, Arg1(body[k]), b.depth, |f.blocks|);
      WithCatchAdmits(body, bounds, f, Arg1(body[k]));
      NextAdmits(p, body, bounds, k, |st| - base, |f.blocks|, f);
    case Break => if GetBreak(f) != -1 { BreakAdmits(body, bounds, f, |st| - base); }
    case Continue => if GetBreak(f) != -1 { BreakAdmits(body, bounds, f, |st| - base); }
  }

  lemma NextAdmits(p: Program, body: seq<Instr>, bounds: seq<Bound>, k: nat, height: int, depth: int, f: Frame)
    requires Ready(p, body, bounds, k, f, height) && FallsThrough(ActionOf(body[k].op))
    requires DepthAfter(ActionOf(body[k].op), bounds[k].depth) <= depth
    ensures AdmitsAt(body, bounds, f.pc, height + Delta(ActionOf(body[k].op)), depth)
  {
    hide Offset, FrameShape, TargetOk, BlocksAdmit, Demand;
    AdmitsOffset(body, bounds, k + 1, height + Delta(ActionOf(body[k].op)), depth);
  }

  lemma ExecOperandAdmits(
    p: Program, body: seq<Instr>, bounds: seq<Bound>, k: nat, st: seq<Value>, f: Frame, base: nat, c: Choice)
    requires Ready(p, body, bounds, k, f, |st| - base) && base + Needs(ActionOf(body[k].op)) <= |st|
    requires ActionOf(body[k].op) !in {Enter, Leave, SetBreak, Try, Break, Continue, Throw}
    ensures Leaves(body, bounds, ExecOperand(DecodedOf(body, k), st, f, c), base)
  {
    hide FrameShape, AdmitsAt, Boundary;
    var a := ActionOf(body[k].op);
    if FallsThrough(a) {
      NextAdmits(p, body, bounds, k, |st| - base, |f.blocks|, f);
    }
    if a.Jump? || a.CondJump? {
      HigherAdmits(body, bounds, Arg1(body[k]), bounds[k].height + Delta(a), bounds[k].depth,
        |st| - base + Delta(a), |f.blocks|);
    }
  }

  lemma HigherAdmits(body: seq<Instr>, bounds: seq<Bound>, pc: int, h: int, d: int, h': int, d': int)
    requires |bounds| == |body| + 1 && h <= h' && d <= d' && AdmitsAt(body, bounds, pc, h, d)
    ensures AdmitsAt(body, bounds, pc, h', d')
  {
  }

  lemma ExecuteAdmits(
    p: Program, body: seq<Instr>, bounds: seq<Bound>, k: nat, st: seq<Value>, f: Frame, base: nat, c: Choice)
    requires Ready(p, body, bounds, k, f, |st| - base) && base + Needs(ActionOf(body[k].op)) <= |st|
    ensures Leaves(body, bounds, Execute(DecodedOf(body, k), st, f, c), base)
  {
    hide FrameShape, BlocksAdmit, AcceptsInstr, TargetOk, Leaves, ExecThrow, ExecBlock, ExecOperand;
    var a := ActionOf(body[k].op);
    if a.Throw? {
      ExecThrowAdmits(p, body, bounds, k, st, f, base, c);
    } else if a in {Enter, Leave, SetBreak, Try, Break, Continue} {
      ExecBlockAdmits(p, body, bounds, k, st, f, base, c);
    } else {
      ExecOperandAdmits(p, body, bounds, k, st, f, base, c);
    }
  }

  // ---------------------------------------------------------------- one step

  lemma CertifiedTop(p: Program, l: Listing, cert: Certificate, s: State)
    requires Accepts(p, l, cert) && Certified(p, l, cert, s) && s.frames != []
    ensures var m := Top(s).meth;
            && m < |l| == |cert| && FrameShape(p, Top(s)) && AcceptsMethod(p, p.methods[m], l[m], cert[m])
            && BlocksAdmit(l[m], cert[m], Top(s).blocks)
            && (s.mode.Running? || s.mode == Returning(NoError) ==>
                  FrameAdmits(l[m], cert[m], Top(s), |s.stack| - Base(p, Top(s))))
  {
    hide FrameAdmits, BlocksAdmit, AcceptsMethod, Targeted, FrameControl, CacheAgrees, Layout, Heights;
    TopControl(p, l, s);
    assert FrameCertified(p, l, cert, s, |s.frames| - 1);
  }

  /** In a certified state about to execute an instruction, its index k. */
  lemma CertifiedExecutes(p: Program, l: Listing, cert: Certificate, s: State) returns (k: nat)
    requires Accepts(p, l, cert) && Certified(p, l, cert, s) && HasCode(p, s) && !Exits(p, s)
    ensures Executes(p, s) && PopsWithin(p, s)
    ensures var m, body := Top(s).meth, l[Top(s).meth];
            && k < |body| && Current(p, s) == Some(DecodedOf(body, k))
            && AcceptsInstr(p, p.methods[m], body, cert[m], k)
            && Admits(cert[m][k], |s.stack| - Base(p, Top(s)), |Top(s).blocks|)
  {
    hide Shape, Heights, FrameShape, Boundary, Controlled, Certified, BlocksAdmit, AcceptsCall, AdmitsBreak;
    hide AdmitsCatch;
    CertifiedTop(p, l, cert, s);
    assert Controlled(p, l, s) by { CertifiedParts(p, l, cert, s); }
    k := FetchAtBoundary(p, l, s);
    var m, body := Top(s).meth, l[Top(s).meth];
    assert Offset(body, k) == Top(s).pc;
    assert AcceptsInstr(p, p.methods[m], body, cert[m], k);
    assert Demand(p.methods[m], DecodedOf(body, k)) <= cert[m][k].height;
  }

  lemma CertifiedParts(p: Program, l: Listing, cert: Certificate, s: State)
    requires Accepts(p, l, cert) && Certified(p, l, cert, s)
    ensures Assembled(p, l) && Targeted(l) && Sound(p, s) && Controlled(p, l, s) && !s.mode.Fault?
  {
  }

  lemma CertifiedPops(p: Program, l: Listing, cert: Certificate, s: State)
    requires Accepts(p, l, cert) && Certified(p, l, cert, s)
    ensures PopsWithin(p, s)
  {
    hide Certified, Accepts, Current;
    if HasCode(p, s) && !Exits(p, s) {
      var k := CertifiedExecutes(p, l, cert, s);
    }
  }

  lemma CallerCertified(p: Program, l: Listing, cert: Certificate, s: State, t: State, i: nat)
    requires Accepts(p, l, cert) && Certified(p, l, cert, s) && Shape(p, t)
    requires i + 1 < |s.frames| && i + 1 < |t.frames|
    requires t.frames[i] == s.frames[i] && SameCall(s.frames[i + 1], t.frames[i + 1])
    ensures FrameCertified(p, l, cert, t, i)
  {
    hide FrameAdmits, BlocksAdmit, Accepts;
    assert FrameCertified(p, l, cert, s, i);
  }

  /** The caller's frame after the return of a call. */
  lemma DeliverAdmits(p: Program, body: seq<Instr>, bounds: seq<Bound>, s: State)
    requires Sound(p, s) && s.mode.Returning? && s.frames != [] && |bounds| == |body| + 1
    requires FrameShape(p, Top(s)) && BlocksAdmit(body, bounds, Top(s).blocks)
    requires s.mode == Returning(NoError) ==> FrameAdmits(body, bounds, Top(s), |s.stack| - Base(p, Top(s)))
    ensures var t := Deliver(s, s.mode.err);
            && Callers(t) == Callers(s) && SameCall(Top(s), Top(t)) && |t.frames| == |s.frames|
            && FrameAdmits(body, bounds, Top(t), |t.stack| - Base(p, Top(t)))
  {
    hide AdmitsAt, FrameShape;
    GetCatchAdmits(p, body, bounds, Top(s));
    GetCatchShape(p, Top(s));
    TopReach(p, s);
  }


  /** An instruction that is not a call. */
  lemma LocalAdmits(p: Program, l: Listing, cert: Certificate, s: State, k: nat, c: Choice)
    requires Accepts(p, l, cert) && Certified(p, l, cert, s) && Executes(p, s) && Top(s).meth < |l| == |cert|
    requires k < |l[Top(s).meth]| && Current(p, s) == Some(DecodedOf(l[Top(s).meth], k))
    requires |cert[Top(s).meth]| == |l[Top(s).meth]| + 1
    requires AcceptsInstr(p, MethodOf(p, Top(s)), l[Top(s).meth], cert[Top(s).meth], k)
    requires Admits(cert[Top(s).meth][k], |s.stack| - Base(p, Top(s)), |Top(s).blocks|)
    requires !IsCall(ActionOf(l[Top(s).meth][k].op))
    ensures var t := Step(p, s, c);
            && t.mode.Running? && |t.frames| == |s.frames|
            && FrameAdmits(l[Top(s).meth], cert[Top(s).meth], Top(t), |t.stack| - Base(p, Top(s)))
  {
    hide Accepts, Certified, Shape, Heights, Controlled, BlocksAdmit, AcceptsInstr, TargetOk, FrameAdmits;
    hide Current, Execute, Targeted, FrameShape, Needs;
    var body, bounds, f := l[Top(s).meth], cert[Top(s).meth], Top(Advanced(p, s));
    CertifiedParts(p, l, cert, s);
    CertifiedTop(p, l, cert, s);
    TopReach(p, s);
    AdvancedShape(p, s);
    TopReady(p, l, cert, s, k);
    NeedsWithin(p, body, bounds, k, f, |s.stack| - Base(p, Top(s)));
    ExecuteAdmits(p, body, bounds, k, s.stack, f, Base(p, Top(s)), c);
  }

  lemma NeedsWithin(p: Program, body: seq<Instr>, bounds: seq<Bound>, k: nat, f: Frame, height: int)
    requires Ready(p, body, bounds, k, f, height)
    ensures Needs(ActionOf(body[k].op)) <= height
  {
    hide FrameShape, TargetOk, BlocksAdmit;
  }

  lemma TopReady(p: Program, l: Listing, cert: Certificate, s: State, k: nat)
    requires Accepts(p, l, cert) && Certified(p, l, cert, s) && Executes(p, s) && Top(s).meth < |l| == |cert|
    requires k < |l[Top(s).meth]| && Current(p, s) == Some(DecodedOf(l[Top(s).meth], k))
    requires |cert[Top(s).meth]| == |l[Top(s).meth]| + 1
    requires AcceptsInstr(p, MethodOf(p, Top(s)), l[Top(s).meth], cert[Top(s).meth], k)
    requires Admits(cert[Top(s).meth][k], |s.stack| - Base(p, Top(s)), |Top(s).blocks|)
    requires !IsCall(ActionOf(l[Top(s).meth][k].op))
    ensures Ready(p, l[Top(s).meth], cert[Top(s).meth], k, Top(Advanced(p, s)), |s.stack| - Base(p, Top(s)))
  {
    hide Accepts, Certified, Shape, Heights, Controlled, BlocksAdmit, AcceptsInstr, TargetOk, FrameAdmits, Current;
    CertifiedParts(p, l, cert, s);
    CertifiedTop(p, l, cert, s);
    assert TargetOk(l[Top(s).meth], l[Top(s).meth][k]);
    AdvancedTop(p, s);
  }

  lemma AdvancedTop(p: Program, s: State)
    requires Executes(p, s) && FrameShape(p, Top(s))
    ensures var f := Top(Advanced(p, s));
            && f == Top(s).(pc := Current(p, s).value.next)
            && FrameShape(p, f) && f.err == NoError && SameCall(Top(s), f)
  {
  }

  /** Certified, when a step leaves all but the top frame alone. */
  lemma TopCertified(p: Program, l: Listing, cert: Certificate, s: State, t: State)
    requires Accepts(p, l, cert) && Certified(p, l, cert, s) && Sound(p, t) && Controlled(p, l, t) && !t.mode.Fault?
    requires s.frames != [] && |t.frames| == |s.frames| && Callers(t) == Callers(s) && SameCall(Top(s), Top(t))
    requires FrameCertified(p, l, cert, t, |t.frames| - 1)
    ensures Certified(p, l, cert, t)
  {
    hide Accepts, Shape, Heights, Controlled, FrameCertified, SameCall;
    var n := |s.frames| - 1;
    forall i | 0 <= i < n
      ensures FrameCertified(p, l, cert, t, i)
    {
      assert t.frames[i] == Callers(t)[i] == s.frames[i];
      NextSameCall(s, t, i);
      CallerCertified(p, l, cert, s, t, i);
    }
  }

  /** A top frame that is admitted is certified. */
  lemma AdmittedTop(p: Program, l: Listing, cert: Certificate, s: State)
    requires Accepts(p, l, cert) && Sound(p, s) && s.frames != []
    requires Top(s).meth < |l| == |cert| && |cert[Top(s).meth]| == |l[Top(s).meth]| + 1
    requires FrameAdmits(l[Top(s).meth], cert[Top(s).meth], Top(s), |s.stack| - Base(p, Top(s)))
    ensures FrameCertified(p, l, cert, s, |s.frames| - 1)
  {
    hide Accepts, BlocksAdmit, AdmitsAt, Heights, FrameShape;
  }

  lemma NextSameCall(s: State, t: State, i: nat)
    requires s.frames != [] && |t.frames| == |s.frames| && Callers(t) == Callers(s) && SameCall(Top(s), Top(t))
    requires i + 1 < |s.frames|
    ensures SameCall(s.frames[i + 1], t.frames[i + 1])
  {
    if i + 1 < |s.frames| - 1 {
      assert t.frames[i + 1] == Callers(t)[i + 1] == Callers(s)[i + 1];
    }
  }

  // ---------------------------------------------------------------- calls and returns

  /** A call of a method that the site's signature resolves to, or an immediate
      return; only a native method returns at once without an error. */
  lemma CallOutcome(p: Program, s: State, c: Choice)
    requires Executes(p, s) && Enabled(p, s, c) && 0 <= Base(p, Top(s))
    requires var d, m := Current(p, s).value, MethodOf(p, Top(s));
             && IsCall(ActionOf(d.op)) && CallSite(m, d).Some? && (ActionOf(d.op).Call? ==> d.arg2 >= 0)
             && Demand(m, d) <= |s.stack| - Base(p, Top(s))
    ensures var t, sig := Step(p, s, c), CallSite(MethodOf(p, Top(s)), Current(p, s).value).value;
            if t.mode.Running? then
              var k := c.callee.m;
              && c.callee.Found? && k < |p.methods| && Resolves(sig, p.methods[k]) && !p.methods[k].isnative
              && sig.argc <= |s.stack|
              && t == State(s.stack[..|s.stack| - sig.argc],
                            Advanced(p, s).frames + [NewFrame(k, sig.argc, |s.stack|)], Running)
            else
              && t.mode.Returning? && t.frames == Advanced(p, s).frames
              && (t.mode.err == NoError ==>
                    && c.callee.Found? && c.callee.m < |p.methods| && Resolves(sig, p.methods[c.callee.m])
                    && |t.stack| == |s.stack| - sig.argc + Ret(p.methods[c.callee.m]))
  {
    hide Current;
  }

  ghost predicate AtCall(p: Program, l: Listing, cert: Certificate, s: State, k: nat) {
    && Accepts(p, l, cert) && Certified(p, l, cert, s) && Executes(p, s) && Top(s).meth < |l| == |cert|
    && k < |l[Top(s).meth]| && Current(p, s) == Some(DecodedOf(l[Top(s).meth], k))
    && |cert[Top(s).meth]| == |l[Top(s).meth]| + 1
    && IsCall(ActionOf(l[Top(s).meth][k].op))
    && AcceptsInstr(p, MethodOf(p, Top(s)), l[Top(s).meth], cert[Top(s).meth], k)
    && Admits(cert[Top(s).meth][k], |s.stack| - Base(p, Top(s)), |Top(s).blocks|)
  }

  /** The caller is admitted past the call whichever method the signature found. */
  lemma CallerAdmits(p: Program, l: Listing, cert: Certificate, s: State, k: nat, m: nat, height: int)
    requires AtCall(p, l, cert, s, k) && m < |p.methods|
    requires CallSite(MethodOf(p, Top(s)), Current(p, s).value).Some?
    requires Resolves(CallSite(MethodOf(p, Top(s)), Current(p, s).value).value, p.methods[m])
    requires height == |s.stack| - Base(p, Top(s)) - p.methods[m].sig.argc + Ret(p.methods[m])
    ensures FrameAdmits(l[Top(s).meth], cert[Top(s).meth], Top(Advanced(p, s)), height)
  {
    hide Accepts, Certified, FrameShape, BlocksAdmit, AdmitsAt, Current, Resolves, Offset;
    CertifiedTop(p, l, cert, s);
    AdvancedTop(p, s);
    AdmitsOffset(l[Top(s).meth], cert[Top(s).meth], k + 1, height, |Top(s).blocks|);
  }

  lemma CallPreconditions(p: Program, l: Listing, cert: Certificate, s: State, k: nat)
    requires AtCall(p, l, cert, s, k)
    ensures var d, m := Current(p, s).value, MethodOf(p, Top(s));
            && IsCall(ActionOf(d.op)) && CallSite(m, d).Some? && (ActionOf(d.op).Call? ==> d.arg2 >= 0)
            && Demand(m, d) <= |s.stack| - Base(p, Top(s)) && 0 <= Base(p, Top(s))
    ensures FrameShape(p, Top(s)) && BlocksAdmit(l[Top(s).meth], cert[Top(s).meth], Top(s).blocks)
  {
    hide Accepts, Certified, FrameShape, BlocksAdmit, Current, Resolves;
    CertifiedTop(p, l, cert, s);
    CertifiedParts(p, l, cert, s);
    TopReach(p, s);
  }

  lemma StartAdmits(p: Program, l: Listing, cert: Certificate, m: nat, h: nat)
    requires Accepts(p, l, cert) && m < |p.methods|
    ensures m < |l| == |cert| && |cert[m]| == |l[m]| + 1
    ensures FrameAdmits(l[m], cert[m], NewFrame(m, p.methods[m].sig.argc, h), 0)
    ensures BlocksAdmit(l[m], cert[m], NewFrame(m, p.methods[m].sig.argc, h).blocks)
  {
    hide AcceptsInstr, Targeted;
    assert AcceptsMethod(p, p.methods[m], l[m], cert[m]);
    assert Offset(l[m], 0) == 0;
    AdmitsOffset(l[m], cert[m], 0, 0, 1);
  }

  lemma PushCertified(p: Program, l: Listing, cert: Certificate, s: State, t: State, k: nat, m: nat)
    requires AtCall(p, l, cert, s, k) && m < |p.methods| && p.methods[m].sig.argc <= |s.stack|
    requires CallSite(MethodOf(p, Top(s)), Current(p, s).value).Some?
    requires Resolves(CallSite(MethodOf(p, Top(s)), Current(p, s).value).value, p.methods[m])
    requires var argc := p.methods[m].sig.argc;
             t == State(s.stack[..|s.stack| - argc], Advanced(p, s).frames + [NewFrame(m, argc, |s.stack|)], Running)
    requires Sound(p, t) && Controlled(p, l, t)
    ensures Certified(p, l, cert, t)
  {
    hide Accepts, Shape, Heights, Controlled, FrameShape, BlocksAdmit, AcceptsInstr, Current, FrameAdmits;
    hide Resolves, CallSite;
    var n, argc := |s.frames| - 1, p.methods[m].sig.argc;
    CallPreconditions(p, l, cert, s, k);
    AdvancedTop(p, s);
    StartAdmits(p, l, cert, m, |s.stack|);
    var height := |s.stack| - Base(p, Top(s)) - argc + Ret(p.methods[m]);
    CallerAdmits(p, l, cert, s, k, m, height);
    assert FrameCertified(p, l, cert, t, n + 1);
    assert FrameCertified(p, l, cert, t, n) by { CallerHeight(p, s, t, m, height); }
    forall i | 0 <= i < n
      ensures FrameCertified(p, l, cert, t, i)
    {
      CallerCertified(p, l, cert, s, t, i);
    }
  }

  lemma CallerHeight(p: Program, s: State, t: State, m: nat, height: int)
    requires Executes(p, s) && FrameShape(p, Top(s)) && Shape(p, t) && m < |p.methods|
              && p.methods[m].sig.argc <= |s.stack|
    requires t.frames == Advanced(p, s).frames + [NewFrame(m, p.methods[m].sig.argc, |s.stack|)]
    requires height == |s.stack| - Base(p, Top(s)) - p.methods[m].sig.argc + Ret(p.methods[m])
    ensures t.frames[|s.frames| - 1] == Top(Advanced(p, s))
    ensures ResumeHeight(p, t, |s.frames| - 1) == height
  {
  }

  lemma CallCertified(p: Program, l: Listing, cert: Certificate, s: State, k: nat, c: Choice)
    requires AtCall(p, l, cert, s, k) && Enabled(p, s, c)
    requires Sound(p, Step(p, s, c)) && Controlled(p, l, Step(p, s, c))
    ensures Certified(p, l, cert, Step(p, s, c))
  {
    hide Accepts, Certified, Shape, Heights, Controlled, FrameShape, BlocksAdmit, AcceptsInstr, Current, Step;
    hide Enabled, FrameAdmits, CallSite;
    var t, n := Step(p, s, c), |s.frames| - 1;
    CallPreconditions(p, l, cert, s, k);
    AdvancedTop(p, s);
    CallOutcome(p, s, c);
    if t.mode.Running? {
      PushCertified(p, l, cert, s, t, k, c.callee.m);
    } else {
      if t.mode.err == NoError {
        CallerAdmits(p, l, cert, s, k, c.callee.m, |t.stack| - Base(p, Top(s)));
      }
      TopCertified(p, l, cert, s, t);
    }
  }

  lemma ExitCertified(p: Program, l: Listing, cert: Certificate, s: State)
    requires Accepts(p, l, cert) && Certified(p, l, cert, s) && HasCode(p, s)
    requires Sound(p, ExitFrame(p, s)) && Controlled(p, l, ExitFrame(p, s))
    ensures Certified(p, l, cert, ExitFrame(p, s))
  {
    hide Accepts, Heights, Controlled, FrameAdmits, BlocksAdmit, FrameShape, ExitFrame, Delivers;
    ExitDelivers(p, s);
    var t := ExitFrame(p, s);
    assert Callers(s) == t.frames;
    forall i | 0 <= i < |t.frames|
      ensures FrameCertified(p, l, cert, t, i)
    {
      assert t.frames[i] == s.frames[i] && FrameCertified(p, l, cert, s, i);
      if i == |t.frames| - 1 && t.mode == Returning(NoError) {
        ExitHeight(p, s);
      }
    }
  }

  /** A return without an error leaves exactly the operands the caller resumes with. */
  lemma ExitHeight(p: Program, s: State)
    requires Sound(p, s) && HasCode(p, s) && ExitFrame(p, s).mode == Returning(NoError)
    ensures |ExitFrame(p, s).stack| == Base(p, Top(s)) + Ret(MethodOf(p, Top(s)))
  {
    ExitDelivers(p, s);
    TopReach(p, s);
  }

  lemma StepCases(p: Program, s: State, c: Choice)
    ensures s.mode.Returning? ==> Step(p, s, c) == if s.frames == [] then s else Deliver(s, s.mode.err)
    ensures HasCode(p, s) && Exits(p, s) ==> Step(p, s, c) == ExitFrame(p, s)
  {
  }

  lemma DeliverCertified(p: Program, l: Listing, cert: Certificate, s: State, c: Choice)
    requires Accepts(p, l, cert) && Certified(p, l, cert, s) && s.mode.Returning? && s.frames != []
    requires Sound(p, Step(p, s, c)) && Controlled(p, l, Step(p, s, c)) && !Step(p, s, c).mode.Fault?
    ensures Certified(p, l, cert, Step(p, s, c))
  {
    hide Accepts, Certified, Shape, Heights, Controlled, Step, FrameAdmits, BlocksAdmit, Deliver, FrameShape;
    hide FrameCertified, AcceptsMethod, Base;
    CertifiedParts(p, l, cert, s);
    CertifiedTop(p, l, cert, s);
    MethodBounds(p, l, cert, Top(s).meth);
    StepCases(p, s, c);
    DeliverAdmits(p, l[Top(s).meth], cert[Top(s).meth], s);
    AdmittedTop(p, l, cert, Step(p, s, c));
    TopCertified(p, l, cert, s, Step(p, s, c));
  }

  lemma LocalCertified(p: Program, l: Listing, cert: Certificate, s: State, k: nat, c: Choice)
    requires Accepts(p, l, cert) && Certified(p, l, cert, s) && Executes(p, s) && Top(s).meth < |l| == |cert|
    requires k < |l[Top(s).meth]| && Current(p, s) == Some(DecodedOf(l[Top(s).meth], k))
    requires |cert[Top(s).meth]| == |l[Top(s).meth]| + 1
    requires AcceptsInstr(p, MethodOf(p, Top(s)), l[Top(s).meth], cert[Top(s).meth], k)
    requires Admits(cert[Top(s).meth][k], |s.stack| - Base(p, Top(s)), |Top(s).blocks|)
    requires !IsCall(ActionOf(l[Top(s).meth][k].op)) && Enabled(p, s, c)
    requires Sound(p, Step(p, s, c)) && Controlled(p, l, Step(p, s, c)) && PopsWithin(p, s)
    ensures Certified(p, l, cert, Step(p, s, c))
  {
    hide Accepts, Certified, Shape, Heights, Controlled, Step, AcceptsInstr, Current, Enabled, PopsWithin;
    hide FrameCertified, FrameAdmits, ExitFrame, FrameShape;
    CertifiedParts(p, l, cert, s);
    TopReach(p, s);
    StepBelow(p, s, c, |s.frames| - 1, Base(p, Top(s)));
    LocalAdmits(p, l, cert, s, k, c);
    AdmittedTop(p, l, cert, Step(p, s, c));
    TopCertified(p, l, cert, s, Step(p, s, c));
  }

  lemma ExecutesCertified(p: Program, l: Listing, cert: Certificate, s: State, c: Choice)
    requires Accepts(p, l, cert) && Certified(p, l, cert, s) && HasCode(p, s) && !Exits(p, s) && Enabled(p, s, c)
    requires Sound(p, Step(p, s, c)) && Controlled(p, l, Step(p, s, c)) && PopsWithin(p, s)
    ensures Certified(p, l, cert, Step(p, s, c))
  {
    hide Accepts, Certified, Sound, Controlled, Step, AcceptsInstr, AcceptsMethod, FrameAdmits, Current;
    hide Enabled, PopsWithin, FrameShape;
    CertifiedTop(p, l, cert, s);
    var k := CertifiedExecutes(p, l, cert, s);
    assert |cert[Top(s).meth]| == |l[Top(s).meth]| + 1 by { MethodBounds(p, l, cert, Top(s).meth); }
    if IsCall(ActionOf(l[Top(s).meth][k].op)) {
      CallCertified(p, l, cert, s, k, c);
    } else {
      LocalCertified(p, l, cert, s, k, c);
    }
  }

  lemma MethodBounds(p: Program, l: Listing, cert: Certificate, m: nat)
    requires Accepts(p, l, cert) && m < |l|
    ensures |cert| == |l| && |cert[m]| == |l[m]| + 1
  {
    assert AcceptsMethod(p, p.methods[m], l[m], cert[m]);
  }

  lemma StepCertified(p: Program, l: Listing, cert: Certificate, s: State, c: Choice)
    requires Accepts(p, l, cert) && Certified(p, l, cert, s) && Enabled(p, s, c)
    ensures Certified(p, l, cert, Step(p, s, c))
  {
    hide Accepts, Certified, Shape, Heights, Controlled, Step, Enabled, FrameAdmits, Sound, PopsWithin, ExitFrame;
    CertifiedParts(p, l, cert, s);
    CertifiedPops(p, l, cert, s);
    StepSound(p, s, c);
    StepControl(p, l, s, c);
    StepCases(p, s, c);
    if s.mode.Returning? {
      if s.frames != [] {
        DeliverRuns(p, s);
        DeliverCertified(p, l, cert, s, c);
      }
    } else {
      RunningControl(p, l, s);
      TopControl(p, l, s);
      if Exits(p, s) {
        ExitCertified(p, l, cert, s);
      } else {
        ExecutesCertified(p, l, cert, s, c);
      }
    }
  }

  lemma DeliverRuns(p: Program, s: State)
    requires Sound(p, s) && s.mode.Returning? && s.frames != []
    ensures Deliver(s, s.mode.err).mode.Running?
  {
    TopReach(p, s);
    DeliverBelow(p, s, |s.frames| - 1, Base(p, Top(s)));
  }

  // ---------------------------------------------------------------- runs

  lemma StartCertified(p: Program, l: Listing, cert: Certificate, m: nat)
    requires Accepts(p, l, cert) && m < |p.methods| && !p.methods[m].isnative
    ensures Certified(p, l, cert, Start(p, m))
  {
    hide Accepts, FrameAdmits, BlocksAdmit, Controlled, Heights;
    StartSound(p, m);
    CertifiedListing(p, l, cert);
    StartControl(p, l, m);
    StartAdmits(p, l, cert, m, p.methods[m].sig.argc);
  }

  lemma CertifiedListing(p: Program, l: Listing, cert: Certificate)
    requires Accepts(p, l, cert)
    ensures Assembled(p, l) && Targeted(l)
  {
  }

  lemma {:induction false} RunCertified(p: Program, l: Listing, cert: Certificate, m: nat, run: seq<State>, n: nat)
    requires Accepts(p, l, cert) && m < |p.methods| && !p.methods[m].isnative
    requires IsRun(p, run) && run[0] == Start(p, m) && n < |run|
    ensures Certified(p, l, cert, run[n])
  {
    hide Accepts, Certified, Step, Enabled, Next, Start;
    if n == 0 {
      StartCertified(p, l, cert, m);
    } else {
      RunCertified(p, l, cert, m, run, n - 1);
      var c := StepOf(p, run, n - 1);
      StepCertified(p, l, cert, run[n - 1], c);
    }
  }

  /** Soundness of the certificate: whatever an accepted program is given and
      however its runs branch, call, break and throw, no step takes an operand
      below the current frame's base, and no step faults. */
  lemma AcceptedNeverPopsBelow(p: Program, l: Listing, cert: Certificate, m: nat, run: seq<State>)
    requires Accepts(p, l, cert) && m < |p.methods| && !p.methods[m].isnative
    requires IsRun(p, run) && run[0] == Start(p, m)
    ensures RunPopsWithin(p, run)
    ensures forall i :: 0 <= i < |run| ==> !run[i].mode.Fault?
  {
    hide Accepts, Certified, Next, PopsWithin;
    forall i | 0 <= i < |run|
      ensures PopsWithin(p, run[i]) && !run[i].mode.Fault?
    {
      RunCertified(p, l, cert, m, run, i);
      CertifiedPops(p, l, cert, run[i]);
      CertifiedParts(p, l, cert, run[i]);
    }
  }

  /** An accepted method that returns to qinterpRun leaves a clean interpreter. */
  lemma AcceptedRunIsClean(p: Program, l: Listing, cert: Certificate, m: nat, run: seq<State>, i: nat)
    requires Accepts(p, l, cert) && m < |p.methods| && !p.methods[m].isnative
    requires IsRun(p, run) && run[0] == Start(p, m) && i < |run| && run[i].frames == []
    ensures run[i].mode.Returning? && FinishRun(run[i]).stack == []
    ensures FinishRun(run[i]).varret.Some? <==> Delivers(p.methods[m], run[i].mode.err)
  {
    hide Accepts, IsRun, RunPopsWithin, Delivers, FinishRun;
    AcceptedNeverPopsBelow(p, l, cert, m, run);
    WholeRunIsClean(p, m, run, i);
  }
}
