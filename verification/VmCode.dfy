/**
  Instruction words of the jspp bytecode machine: the documented layout of an
  instruction word, the fetch that `_interp` performs, and the assembler's
  inverse of it.
 */
module VmCode {

  import opened Common

  /** A 16 bit code word. */
  type Word = w: int | 0 <= w < 0x1_0000

  /** A 32 bit immediate argument. */
  type Arg = a: int | -0x8000_0000 <= a < 0x8000_0000

  const MODE_IM := 4

  const OP_JMP := 50

  /** What the switch in `_interp` does with an opcode, up to the values computed.
      `fault` is the error the handler may raise, or NoError when it cannot fail. */
  datatype Action =
    | Skip
    | Push(fault: Err)
    | Unary(fault: Err)
    | Binary(fault: Err)
    | Assign
    | Pop
    | Dup
    | Rot
    | Rot3
    | Enter
    | Leave
    | Call
    | StaticCall
    | VoidReturn
    | ValueReturn
    | CondJump
    | Jump
    | Break
    | SetBreak
    | Continue
    | Try
    | Throw
    | Unmodelled
    | Unknown

  datatype Err =
    | NoError
    | OutOfMem
    | MainClassNotFound
    | ClassNotFound
    | UnknownMethod
    | UnknownOpcode
    | FieldNotFound
    | TypeMismatch
    | InternalError1
    | InternalError2
    | BadBreak
    | BadContinue
    | Exception
    | CallRequiresThis
    | IndexOutOfBounds
    | WrongArrayIndexs
    | Returned

  /** The opcode numbering of opcodes.h, grouped by handler. */
  function ActionOf(op: nat): Action {
    match op
    case 0 | 56 => Skip                                        // NOP LINE
    case 1 => Pop
    case 2 | 34 | 37 => Push(NoError)                          // PUSH LVALUE NULL
    case 3 => Rot
    case 4 => Rot3
    case 5 => Dup
    case 6 | 7 | 9 | 10 | 11 => Binary(TypeMismatch)           // ADD SUB MULT DIV MOD
    case 17 | 19 | 20 => Binary(TypeMismatch)                  // BINAND BINOR XOR
    case 23 | 24 => Binary(TypeMismatch)                       // RSHIFT LSHIFT
    case 25 | 26 | 27 | 28 | 29 | 30 => Binary(TypeMismatch)   // LT GT LTEQ GTEQ EQ NEQ
    case 16 | 18 => Binary(NoError)                            // AND OR
    case 8 | 21 | 22 => Unary(TypeMismatch)                    // NEGATE COMPL NOT
    case 12 | 13 | 14 | 15 => Unary(TypeMismatch)              // INC DEC PINC PDEC
    case 33 => Unary(NoError)                                  // RVALUE
    case 35 => Unary(FieldNotFound)                            // DEREF
    case 31 => Assign
    case 32 => Push(CallRequiresThis)                          // THIS
    case 36 => Push(ClassNotFound)                             // SDEREF
    case 38 => Enter
    case 39 => Leave
    case 40 | 42 => Call                                       // CALL BASECALL
    case 43 => StaticCall
    case 44 => VoidReturn
    case 45 => ValueReturn
    case 41 | 46 => Unmodelled                                 // CONSTRUCT NEW
    case 48 | 49 => CondJump                                   // JMPZ JMPNZ
    case 50 => Jump
    case 51 => Break
    case 52 => SetBreak
    case 53 => Continue
    case 54 => Try
    case 55 => Throw
    case _ => Unknown                                          // NATIVE and the unused numbers
  }

  /** The argument count each handler asserts; None where it asserts nothing. */
  function ArgsAsserted(op: nat): Option<nat> {
    if op in {0, 9, 23, 24, 47} || op > 56 then None
    else if op in {2, 34, 35, 38, 43, 46, 48, 49, 50, 52, 54, 56} then Some(1)
    else if op in {36, 40, 41, 42} then Some(2)
    else Some(0)
  }

  // ---------------------------------------------------------------- words

  /** Bits 0-6 opcode, 7-8 argument count, 9-11 mode, 12-14 second mode. */
  function EncodeOp(op: nat, argc: nat, mode: nat, mode2: nat): Word
    requires op < 128 && argc < 4 && mode < 8 && mode2 < 8
  {
    op + 128 * argc + 512 * mode + 4096 * mode2
  }

  function OpField(w: Word): nat { w % 128 }
  function ArgcField(w: Word): nat { w / 128 % 4 }
  function ModeField(w: Word): nat { w / 512 % 8 }
  function Mode2Field(w: Word): nat { w / 4096 % 8 }

  /** decodeOp recovers every field that encodeOp packed. */
  lemma DecodeEncode(op: nat, argc: nat, mode: nat, mode2: nat)
    requires op < 128 && argc < 4 && mode < 8 && mode2 < 8
    ensures var w := EncodeOp(op, argc, mode, mode2);
            OpField(w) == op && ArgcField(w) == argc && ModeField(w) == mode && Mode2Field(w) == mode2
  {
    var w := EncodeOp(op, argc, mode, mode2);
    assert w / 128 == argc + 4 * mode + 32 * mode2;
    assert w / 512 == mode + 8 * mode2;
    assert w / 4096 == mode2;
  }

  function HighWord(a: Arg): Word { (if a < 0 then a + 0x1_0000_0000 else a) / 0x1_0000 }
  function LowWord(a: Arg): Word { (if a < 0 then a + 0x1_0000_0000 else a) % 0x1_0000 }

  function JoinWords(hi: Word, lo: Word): Arg {
    var u := hi * 0x1_0000 + lo;
    if u >= 0x8000_0000 then u - 0x1_0000_0000 else u
  }

  lemma JoinSplit(a: Arg)
    ensures JoinWords(HighWord(a), LowWord(a)) == a
  {
  }

  // ---------------------------------------------------------------- fetch

  /** One decoded instruction and the pc after it. */
  datatype Decoded = Decoded(op: nat, argc: nat, mode: nat, mode2: nat, arg1: int, arg2: int, next: nat)

  function Size(argc: nat): nat {
    1 + (if argc > 0 then 2 else 0) + (if argc > 1 then 2 else 0)
  }

  /** The head of the `_interp` loop; None when the read leaves the code array. */
  function Fetch(code: seq<Word>, pc: int): Option<Decoded> {
    if !(0 <= pc < |code|) then None else
    var argc := ArgcField(code[pc]);
    if pc + Size(argc) > |code| then None else
    Some(Decoded(
           OpField(code[pc]), argc, ModeField(code[pc]), Mode2Field(code[pc]),
           if argc > 0 then JoinWords(code[pc + 1], code[pc + 2]) else 0,
           if argc > 1 then JoinWords(code[pc + 3], code[pc + 4]) else 0,
           pc + Size(argc)))
  }

  // ---------------------------------------------------------------- assembler

  datatype Instr = Instr(op: nat, mode: nat, mode2: nat, args: seq<Arg>)

  predicate WellFormed(i: Instr) {
    && i.op < 128 && i.mode < 8 && i.mode2 < 8
    && |i.args| <= 2
    && (ArgsAsserted(i.op).Some? ==> |i.args| == ArgsAsserted(i.op).value)
  }

  function Arg1(i: Instr): int { if |i.args| > 0 then i.args[0] else 0 }
  function Arg2(i: Instr): int { if |i.args| > 1 then i.args[1] else 0 }

  function ArgWords(args: seq<Arg>): (ws: seq<Word>)
    requires |args| <= 2
    ensures |ws| == 2 * |args|
  {
    (if |args| > 0 then [HighWord(args[0]), LowWord(args[0])] else []) +
    (if |args| > 1 then [HighWord(args[1]), LowWord(args[1])] else [])
  }

  function InstrWords(i: Instr): (ws: seq<Word>)
    requires WellFormed(i)
    ensures |ws| == Size(|i.args|)
  {
    [EncodeOp(i.op, |i.args|, i.mode, i.mode2)] + ArgWords(i.args)
  }

  predicate WellFormedBody(body: seq<Instr>) {
    forall k :: 0 <= k < |body| ==> WellFormed(body[k])
  }

  /** The code words of a method body, instruction after instruction. */
  function Assemble(body: seq<Instr>): (ws: seq<Word>)
    requires WellFormedBody(body)
    ensures |ws| == Offset(body, |body|)
  {
    if body == [] then []
    else
      var last := |body| - 1;
      assert forall k :: 0 <= k < last ==> body[..last][k] == body[k];
      OffsetPrefix(body, last, last);
      Assemble(body[..last]) + InstrWords(body[last])
  }

  /** Word offset of instruction k, or of the end of the code for k = |body|. */
  function Offset(body: seq<Instr>, k: nat): nat
    requires k <= |body|
  {
    if k == 0 then 0 else Offset(body, k - 1) + Size(|body[k - 1].args|)
  }

  lemma {:induction false} OffsetPrefix(body: seq<Instr>, n: nat, k: nat)
    requires k <= n <= |body|
    ensures Offset(body[..n], k) == Offset(body, k)
  {
    if k > 0 {
      OffsetPrefix(body, n, k - 1);
    }
  }

  lemma {:induction false} OffsetMonotone(body: seq<Instr>, i: nat, j: nat)
    requires i < j <= |body|
    ensures Offset(body, i) < Offset(body, j)
  {
    if i < j - 1 {
      OffsetMonotone(body, i, j - 1);
    }
  }

  /** Assembling a prefix of the body yields a prefix of the words. */
  lemma {:induction false} AssembledPrefix(body: seq<Instr>, n: nat)
    requires WellFormedBody(body) && n <= |body|
    ensures WellFormedBody(body[..n])
    ensures Assemble(body[..n]) <= Assemble(body)
    decreases |body|
  {
    if n == |body| {
      assert body[..n] == body;
    } else {
      var rest := body[..|body| - 1];
      assert rest[..n] == body[..n];
      AssembledPrefix(rest, n);
    }
  }

  /** The words of instruction k sit at its offset, whatever follows it. */
  lemma AssembledAt(body: seq<Instr>, k: nat)
    requires WellFormedBody(body) && k < |body|
    ensures Offset(body, k + 1) <= |Assemble(body)|
    ensures Assemble(body)[Offset(body, k)..Offset(body, k + 1)] == InstrWords(body[k])
  {
    var upto := body[..k + 1];
    AssembledPrefix(body, k + 1);
    OffsetPrefix(body, k + 1, k + 1);
    OffsetPrefix(body, k, k);
    assert upto[..k] == body[..k];
    assert Assemble(upto) == Assemble(body[..k]) + InstrWords(body[k]);
  }

  /** Word j of instruction k. */
  lemma AssembledWord(body: seq<Instr>, k: nat, j: nat)
    requires WellFormedBody(body) && k < |body| && j < Size(|body[k].args|)
    ensures Offset(body, k) + j < |Assemble(body)|
    ensures Assemble(body)[Offset(body, k) + j] == InstrWords(body[k])[j]
  {
    AssembledAt(body, k);
    assert Assemble(body)[Offset(body, k) + j] == Assemble(body)[Offset(body, k)..Offset(body, k + 1)][j];
  }

  function DecodedOf(body: seq<Instr>, k: nat): Decoded
    requires k < |body|
  {
    var i := body[k];
    Decoded(i.op, |i.args|, i.mode, i.mode2, Arg1(i), Arg2(i), Offset(body, k + 1))
  }

  /** Fetching at an instruction boundary of assembled code yields exactly that
      instruction, and leaves the pc on the next boundary. */
  lemma FetchAssembled(body: seq<Instr>, k: nat)
    requires WellFormedBody(body) && k < |body|
    ensures Fetch(Assemble(body), Offset(body, k)) == Some(DecodedOf(body, k))
  {
    hide EncodeOp, OpField, ArgcField, ModeField, Mode2Field, JoinWords, HighWord, LowWord;
    var i := body[k];
    var args := i.args;
    AssembledWord(body, k, 0);
    AssembledWord(body, k, Size(|args|) - 1);
    DecodeEncode(i.op, |args|, i.mode, i.mode2);
    if |args| > 0 {
      AssembledWord(body, k, 1);
      AssembledWord(body, k, 2);
      JoinSplit(args[0]);
    }
    if |args| > 1 {
      AssembledWord(body, k, 3);
      AssembledWord(body, k, 4);
      JoinSplit(args[1]);
    }
  }
}
