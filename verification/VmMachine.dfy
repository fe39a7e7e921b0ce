/**
  The jspp bytecode machine as a small-step transition over its own state: the
  operand stack, the call frames with their block frames, and the error each
  frame carries.  One step is one iteration of the `_interp` loop, the return of
  a finished frame to its caller, or the caller's handling of that return.

  Values are abstract.  Whatever the source computes from them (a pushed value,
  the branch a conditional jump takes, the method a signature resolves to, what a
  native method returns) is read from a Choice, so a property of every run is a
  property of every program and every data.
 */
module VmMachine {

  import opened Common
  import opened VmCode

  // ---------------------------------------------------------------- state

  datatype Value = Void | Data(id: int) | Pointer(cell: int)

  /** A local variable cell, named by what it was allocated for. */
  datatype Slot = ArgSlot(index: nat) | VarSlot(depth: nat)

  datatype Block = Block(localcount: int, breakpc: int, blockcount: nat, catchpc: int)

  /** A stackframe.  `history` records, for each open block, the target of the
      last SETBREAK that block itself executed; no transition reads it. */
  datatype Frame = Frame(
    meth: nat, locals: seq<Slot>, blocks: seq<Block>, history: seq<Option<int>>,
    err: Err, retval: Value, stackcount: nat, pc: int)

  datatype Signature = Signature(name: string, isstatic: bool, argc: nat)

  /** `consts` are the signatures in the constant table of the method's class. */
  datatype Method = Method(sig: Signature, code: seq<Word>, consts: seq<Signature>, hasretval: bool, isnative: bool)

  datatype Program = Program(methods: seq<Method>)

  datatype FaultKind =
    | BadFetch      // the pc left the code array
    | Malformed     // argument count other than the handler asserts
    | Underflow     // an operand was taken from an empty stack
    | NoBlock       // SETBREAK or TRY without a block frame
    | Diverges      // the loop in breakBlock never ends
    | BadConstant   // no such entry in the constant table
    | NotModelled   // NEW and CONSTRUCT

  datatype Mode = Running | Returning(err: Err) | Fault(kind: FaultKind)

  /** In mode Returning(e) a call has just returned e to the last of `frames`,
      or to qinterpRun when there is none. */
  datatype State = State(stack: seq<Value>, frames: seq<Frame>, mode: Mode)

  datatype Callee = NoClass | NoMethod | Found(m: nat)

  datatype Choice = Choice(value: Value, fails: bool, taken: bool, addr: int, inst: bool, callee: Callee, native: Err)

  // ---------------------------------------------------------------- blocks

  function Vars(n: int, depth: nat): (s: seq<Slot>)
  {
    seq(if n < 0 then 0 else n, _ => VarSlot(depth))
  }

  function GetBreak(f: Frame): int {
    if f.blocks == [] then -1 else f.blocks[|f.blocks| - 1].breakpc
  }

  function GetBreakBlockCount(f: Frame): nat {
    if f.blocks == [] then 0 else f.blocks[|f.blocks| - 1].blockcount
  }

  function EnterBlock(f: Frame, localcount: int): Frame {
    f.(locals := f.locals + Vars(localcount, |f.blocks|),
       blocks := f.blocks + [Block(localcount, GetBreak(f), GetBreakBlockCount(f), -1)],
       history := f.history + [None])
  }

  function DropLast<T>(s: seq<T>, n: int): seq<T> {
    if n <= 0 then s else if n >= |s| then [] else s[..|s| - n]
  }

  function LeaveBlock(f: Frame): Frame {
    if f.blocks == [] then f else
    f.(locals := DropLast(f.locals, f.blocks[|f.blocks| - 1].localcount),
       blocks := DropLast(f.blocks, 1),
       history := DropLast(f.history, 1))
  }

  function WithBreak(f: Frame, pc: int): Frame
    requires f.blocks != []
  {
    var top := |f.blocks| - 1;
    f.(blocks := f.blocks[top := f.blocks[top].(breakpc := pc, blockcount := |f.blocks|)],
       history := DropLast(f.history, 1) + [Some(pc)])
  }

  function WithCatch(f: Frame, pc: int): Frame
    requires f.blocks != []
  {
    var top := |f.blocks| - 1;
    f.(blocks := f.blocks[top := f.blocks[top].(catchpc := pc)])
  }

  /** Leaves blocks until one has a catch target; -1 when none has. */
  function GetCatch(f: Frame): (Frame, int)
    decreases |f.blocks|
  {
    if f.blocks == [] then (f, -1)
    else if f.blocks[|f.blocks| - 1].catchpc != -1 then (f, f.blocks[|f.blocks| - 1].catchpc)
    else GetCatch(LeaveBlock(f))
  }

  // ---------------------------------------------------------------- frames

  function MethodOf(p: Program, f: Frame): Method
    requires f.meth < |p.methods|
  {
    p.methods[f.meth]
  }

  function Args(argc: nat): (s: seq<Slot>)
  {
    seq(argc, (i: nat) => ArgSlot(i))
  }

  /** enterFrame, enterBlock(0) and the move of the arguments into locals, for a
      call made with `height` operands on the stack, arguments included. */
  function NewFrame(m: nat, argc: nat, height: nat): Frame {
    Frame(m, Args(argc), [Block(0, -1, 0, -1)], [None], NoError, Void, height, 0)
  }

  /** Operand height of the caller once the arguments are gone. */
  function Base(p: Program, f: Frame): int
    requires f.meth < |p.methods|
  {
    f.stackcount - MethodOf(p, f).sig.argc
  }

  function Trim<T>(s: seq<T>, n: int): seq<T> {
    if n < 0 then [] else if |s| > n then s[..n] else s
  }

  function Ret(m: Method): nat { if m.hasretval then 1 else 0 }

  predicate Delivers(m: Method, e: Err) {
    (m.hasretval && e == NoError) || e == Exception
  }

  /** The end of `_interp`, then leaveBlock and leaveFrame. */
  function ExitFrame(p: Program, s: State): State
    requires s.frames != [] && s.frames[|s.frames| - 1].meth < |p.methods|
  {
    var f := s.frames[|s.frames| - 1];
    var m := MethodOf(p, f);
    var e := if f.err == Returned then NoError else f.err;
    var st := Trim(Trim(s.stack, Base(p, f) + Ret(m)), Base(p, f));
    State(if Delivers(m, e) then st + [f.retval] else st, s.frames[..|s.frames| - 1], Returning(e))
  }

  /** What a call opcode does with the error its callee returned. */
  function Deliver(s: State, e: Err): State
    requires s.frames != []
  {
    var n := |s.frames| - 1;
    var f := s.frames[n];
    if e != Exception then
      s.(frames := s.frames[n := f.(err := e)], mode := Running)
    else
      var (g, pc) := GetCatch(f);
      if pc != -1 then
        s.(frames := s.frames[n := g.(err := NoError, pc := pc)], mode := Running)
      else if s.stack == [] then
        s.(mode := Fault(Underflow))
      else
        State(s.stack[..|s.stack| - 1],
              s.frames[n := g.(err := e, pc := -1, retval := s.stack[|s.stack| - 1])],
              Running)
  }

  // ---------------------------------------------------------------- instructions within a frame

  datatype Local = Local(stack: seq<Value>, frame: Frame) | Bad(kind: FaultKind)

  /** Operands an action takes from the stack, calls excepted. */
  function Needs(a: Action): nat {
    match a
    case Unary(_) => 1
    case Binary(_) => 2
    case Assign => 2
    case Pop => 1
    case Dup => 1
    case Rot => 2
    case Rot3 => 3
    case CondJump => 1
    case ValueReturn => 1
    case Throw => 1
    case _ => 0
  }

  /** qinterpResolve of an operand used as a code address. */
  function Address(d: Decoded, c: Choice): int {
    if d.mode == MODE_IM then d.arg1 else c.addr
  }

  function Deref(v: Value, c: Choice): Value {
    if v.Pointer? then c.value else v
  }

  predicate IsCall(a: Action) { a.Call? || a.StaticCall? }

  /** The handler of a non-call instruction, `f.pc` already past it. */
  function Execute(d: Decoded, st: seq<Value>, f: Frame, c: Choice): Local
    requires !IsCall(ActionOf(d.op))
  {
    var a := ActionOf(d.op);
    if a.Throw? then ExecThrow(st, f, c)
    else if |st| < Needs(a) then Bad(Underflow)
    else if a.Enter? || a.Leave? || a.SetBreak? || a.Try? || a.Break? || a.Continue? then ExecBlock(d, st, f, c)
    else ExecOperand(d, st, f, c)
  }

  function ExecOperand(d: Decoded, st: seq<Value>, f: Frame, c: Choice): Local
    requires Needs(ActionOf(d.op)) <= |st|
  {
    var n := |st|;
    match ActionOf(d.op)
    case Skip => Local(st, f)
    case Push(fault) =>
      if c.fails && fault != NoError then Local(st, f.(err := fault)) else Local(st + [c.value], f)
    case Unary(fault) =>
      Local(st[n - 1 := c.value], if c.fails && fault != NoError then f.(err := fault) else f)
    case Binary(fault) =>
      if c.fails && fault != NoError then Local(st, f.(err := fault)) else Local(st[..n - 2] + [c.value], f)
    case Assign => Local(st[..n - 2], f)
    case Pop => Local(st[..n - 1], f)
    case Dup => Local(st + [st[n - 1]], f)
    case Rot => Local(st[n - 1 := st[n - 2]][n - 2 := st[n - 1]], f)
    case Rot3 => Local(st[n - 1 := st[n - 3]][n - 3 := st[n - 1]], f)
    case CondJump =>
      if c.fails then Local(st, f.(err := TypeMismatch))
      else Local(st[..n - 1], if c.taken then f.(pc := Address(d, c)) else f)
    case Jump => Local(st, f.(pc := Address(d, c)))
    case VoidReturn => Local(st, f.(err := Returned))
    case ValueReturn => Local(st[..n - 1], LeaveBlock(f.(retval := Deref(st[n - 1], c))).(err := Returned))
    case Unmodelled => Bad(NotModelled)
    case _ => Local(st, f.(err := UnknownOpcode))
  }

  function ExecBlock(d: Decoded, st: seq<Value>, f: Frame, c: Choice): Local
  {
    match ActionOf(d.op)
    case Enter => Local(st, EnterBlock(f, d.arg1))
    case Leave => Local(st, LeaveBlock(f))
    case SetBreak => if f.blocks == [] then Bad(NoBlock) else Local(st, WithBreak(f, Address(d, c)))
    case Try => if f.blocks == [] then Bad(NoBlock) else Local(st, WithCatch(f, Address(d, c)))
    case Break =>
      if GetBreakBlockCount(f) > |f.blocks| then Bad(Diverges)
      else if GetBreak(f) == -1 then Local(st, f.(pc := -1, err := BadBreak))
      else Local(st, f.(pc := GetBreak(f)))
    case Continue =>
      if GetBreakBlockCount(f) > |f.blocks| then Bad(Diverges)
      else if GetBreak(f) == -1 then Local(st, f.(err := BadContinue))
      else Local(st, f.(pc := GetBreak(f) - 3))
    case _ => Local(st, f)
  }

  function ExecThrow(st: seq<Value>, f: Frame, c: Choice): Local {
    var (g, pc) := GetCatch(f);
    if pc != -1 then Local(st, g.(pc := pc, err := NoError))
    else if st == [] then Bad(Underflow)
    else
      var v := Deref(st[|st| - 1], c);
      Local(st[|st| - 1 := v], LeaveBlock(g.(retval := v)).(pc := -1, err := Exception))
  }

  // ---------------------------------------------------------------- calls

  /** "Object." + sig with every 'I' replaced by 'S', the fallback for a receiver
      that is not an instance. */
  function ObjectName(name: string): string {
    seq(|name|, i requires 0 <= i < |name| => if name[i] == 'I' then 'S' else name[i])
  }

  predicate Resolves(sig: Signature, m: Method) {
    || m.sig == sig
    || m.sig == Signature(ObjectName(sig.name), true, sig.argc)
  }

  /** The signature a call opcode names, if the constant exists. */
  function CallSite(m: Method, d: Decoded): Option<Signature> {
    if 0 <= d.arg1 < |m.consts| then Some(m.consts[d.arg1]) else None
  }

  /** A lookup by signature may find only methods with that signature; the native
      methods neither throw nor report a return. */
  predicate Possible(p: Program, m: Method, d: Decoded, c: Choice) {
    && (c.callee.NoClass? ==> ActionOf(d.op).StaticCall? || !c.inst)
    && (c.callee.Found? && CallSite(m, d).Some? ==>
          c.callee.m < |p.methods| && Resolves(CallSite(m, d).value, p.methods[c.callee.m]))
    && c.native != Exception && c.native != Returned
  }

  /** callStaticMethod, callInstMethod or callBaseMethod up to the first
      instruction of the callee, or to the return of a native. */
  function EnterCall(p: Program, s: State, d: Decoded, c: Choice): State
  {
    if ActionOf(d.op).Call? && !(0 <= d.arg2 < |s.stack|) then s.(mode := Fault(Underflow))
    else
      match c.callee
      case NoClass => s.(mode := Returning(MainClassNotFound))
      case NoMethod =>
        s.(stack := if ActionOf(d.op).Call? && c.inst then s.stack[..|s.stack| - 1] else s.stack,
           mode := Returning(UnknownMethod))
      case Found(k) =>
        if k >= |p.methods| then s.(mode := Returning(UnknownMethod))
        else
          var m := p.methods[k];
          if m.sig.argc > |s.stack| then s.(mode := Fault(Underflow))
          else
            var base := s.stack[..|s.stack| - m.sig.argc];
            if m.isnative then
              State(if m.hasretval then base + [c.value] else base, s.frames, Returning(c.native))
            else
              State(base, s.frames + [NewFrame(k, m.sig.argc, |s.stack|)], Running)
  }

  // ---------------------------------------------------------------- steps

  function Top(s: State): Frame
    requires s.frames != []
  {
    s.frames[|s.frames| - 1]
  }

  function SetTop(s: State, f: Frame): State
    requires s.frames != []
  {
    s.(frames := s.frames[..|s.frames| - 1] + [f])
  }

  /** The machine runs bytecode: there is a frame, of a method of the program. */
  predicate HasCode(p: Program, s: State) {
    s.mode.Running? && s.frames != [] && Top(s).meth < |p.methods|
  }

  function Code(p: Program, s: State): seq<Word>
    requires HasCode(p, s)
  {
    MethodOf(p, Top(s)).code
  }

  /** The loop condition of `_interp` and the error test at its head. */
  predicate Exits(p: Program, s: State)
    requires HasCode(p, s)
  {
    Top(s).pc >= |Code(p, s)| || Top(s).err != NoError
  }

  predicate WellShaped(d: Decoded) {
    ArgsAsserted(d.op).Some? ==> d.argc == ArgsAsserted(d.op).value
  }

  /** The instruction the next step executes, if it executes one. */
  function Current(p: Program, s: State): Option<Decoded>
    requires HasCode(p, s) && !Exits(p, s)
  {
    Fetch(Code(p, s), Top(s).pc)
  }

  predicate Executes(p: Program, s: State) {
    && HasCode(p, s) && !Exits(p, s)
    && Current(p, s).Some? && WellShaped(Current(p, s).value)
  }

  /** The state with the pc moved past the current instruction. */
  function Advanced(p: Program, s: State): State
    requires Executes(p, s)
  {
    SetTop(s, Top(s).(pc := Current(p, s).value.next))
  }

  predicate Enabled(p: Program, s: State, c: Choice) {
    Executes(p, s) && IsCall(ActionOf(Current(p, s).value.op)) ==>
      Possible(p, MethodOf(p, Top(s)), Current(p, s).value, c)
  }

  function ExecuteLocal(s: State, d: Decoded, c: Choice): State
    requires s.frames != [] && !IsCall(ActionOf(d.op))
  {
    match Execute(d, s.stack, Top(s), c)
    case Bad(kind) => s.(mode := Fault(kind))
    case Local(st, f) => SetTop(s, f).(stack := st)
  }

  function Step(p: Program, s: State, c: Choice): State {
    match s.mode
    case Fault(_) => s
    case Returning(e) => if s.frames == [] then s else Deliver(s, e)
    case Running =>
      if !HasCode(p, s) then s.(mode := Fault(BadFetch))
      else if Exits(p, s) then ExitFrame(p, s)
      else if Current(p, s).None? then s.(mode := Fault(BadFetch))
      else if !WellShaped(Current(p, s).value) then s.(mode := Fault(Malformed))
      else
        var d := Current(p, s).value;
        if !IsCall(ActionOf(d.op)) then ExecuteLocal(Advanced(p, s), d, c)
        else if CallSite(MethodOf(p, Top(s)), d).None? then s.(mode := Fault(BadConstant))
        else EnterCall(p, Advanced(p, s), d, c)
  }

  ghost predicate Next(p: Program, s: State, t: State) {
    exists c :: Enabled(p, s, c) && t == Step(p, s, c)
  }

  /** A run, state after state. */
  ghost predicate IsRun(p: Program, run: seq<State>) {
    |run| > 0 && forall i :: 0 <= i < |run| - 1 ==> Next(p, run[i], run[i + 1])
  }

  /** callStaticMethod on bytecode method m with exactly its arguments on the
      stack and no frame: the state at its first instruction. */
  function Start(p: Program, m: nat): State
    requires m < |p.methods|
  {
    State([], [NewFrame(m, p.methods[m].sig.argc, p.methods[m].sig.argc)], Running)
  }

  // ---------------------------------------------------------------- pops within the frame

  function Demand(m: Method, d: Decoded): nat {
    var a := ActionOf(d.op);
    if !IsCall(a) then Needs(a)
    else
      var argc := if CallSite(m, d).Some? then CallSite(m, d).value.argc else 0;
      if a.Call? && d.arg2 + 1 > argc then d.arg2 + 1 else argc
  }

  /** The next step takes no operand from below the current frame's base. */
  predicate PopsWithin(p: Program, s: State) {
    Executes(p, s) ==>
      Demand(MethodOf(p, Top(s)), Current(p, s).value) <= |s.stack| - Base(p, Top(s))
  }

  ghost predicate RunPopsWithin(p: Program, run: seq<State>) {
    forall i :: 0 <= i < |run| ==> PopsWithin(p, run[i])
  }
}
