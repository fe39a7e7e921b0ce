/**
  Condition chains: `field op operand`, each with at most one '(' before and one
  ')' behind, joined by AND and OR, as the source text spells them and as the
  translator writes them, with one meaning for both.
 */
module SqlChain {

  import opened Common
  import opened SqlLex
  import opened SqlOutput

  lemma Assoc<T>(x: seq<T>, a: seq<T>, b: seq<T>)
    ensures (x + a) + b == x + (a + b)
  {
  }

  // ---------------------------------------------------------------- reading tokens

  /** The token a parsing method looks at, its text, and where the next one starts. */
  datatype Cursor = Cursor(token: Token, text: string, pos: nat)

  /** The cursor after the next call of the tokenizer. */
  function NextCursor(src: string, c: Cursor): Cursor {
    if c.pos > |src| then c
    else
      var r := Lex(src, c.pos, c.text);
      Cursor(r.token, r.text, r.pos)
  }

  /** The verdict of that call. */
  predicate NextOk(src: string, c: Cursor) {
    c.pos <= |src| && Lex(src, c.pos, c.text).ok
  }

  /** Past the token in hand. */
  function Skip(src: string, c: Cursor): Option<Cursor> {
    if NextOk(src, c) then Some(NextCursor(src, c)) else None
  }

  /** Past the token in hand, which has to be t. */
  function Take(src: string, c: Cursor, t: Token): Option<Cursor> {
    if c.token == t then Skip(src, c) else None
  }

  /** Past the token in hand, which has to be t with this text. */
  function TakeText(src: string, c: Cursor, t: Token, text: string): Option<Cursor> {
    if c.text == text then Take(src, c, t) else None
  }

  // ---------------------------------------------------------------- parentheses of the source

  predicate Aggregate(name: string) {
    name in {"AVG", "MAX", "MIN", "SUM"}
  }

  function Paren(t: Token): int {
    if t.LPAR? then 1 else if t.RPAR? then -1 else 0
  }

  /** The '(' less the ')' from the token in hand on. */
  function Due(src: string, c: Cursor): int
    decreases |src| - c.pos, !c.token.EOS?
  {
    if c.token.EOS? || c.pos > |src| then 0 else Paren(c.token) + Due(src, NextCursor(src, c))
  }

  /** Tokens with which tokens are skipped unseen: UNION, an aggregate function, and when
      strict any function. */
  predicate Skipper(c: Cursor, strict: bool) {
    c.token.UNION? || (c.token.FUNC? && (strict || Aggregate(Upper(c.text))))
  }

  /** How many of those there are from the token in hand on. */
  function Risks(src: string, c: Cursor, strict: bool): nat
    decreases |src| - c.pos, !c.token.EOS?
  {
    if c.token.EOS? || c.pos > |src| then 0
    else (if Skipper(c, strict) then 1 else 0) + Risks(src, NextCursor(src, c), strict)
  }

  lemma DueNext(src: string, c: Cursor, strict: bool)
    requires c.pos <= |src| && (c.token.EOS? ==> c.pos == |src|)
    ensures Due(src, c) == Paren(c.token) + Due(src, NextCursor(src, c))
    ensures Risks(src, c, strict) == (if Skipper(c, strict) then 1 else 0) + Risks(src, NextCursor(src, c), strict)
  {
    hide TokenAt, Skipper;
    if c.token.EOS? {
      assert !Skipper(c, strict) by { EosSkipsNothing(c, strict); }
    }
  }

  lemma EosSkipsNothing(c: Cursor, strict: bool)
    requires c.token.EOS?
    ensures !Skipper(c, strict)
  {
  }

  /** With these functions tokens are always skipped. */
  lemma AggregateSkips(c: Cursor, strict: bool)
    requires c.token.FUNC? && Aggregate(c.text)
    ensures Skipper(c, strict)
  {
    assert Upper("AVG") == "AVG" && Upper("MAX") == "MAX" && Upper("MIN") == "MIN" && Upper("SUM") == "SUM";
  }

  lemma DueEnd(src: string, c: Cursor)
    requires c.token.EOS?
    ensures Due(src, c) == 0
  {
  }

  lemma StrictSkips(c: Cursor)
    requires c.token.FUNC?
    ensures Skipper(c, true)
  {
  }

  /** Capitals make no difference. */
  lemma DueCapital(src: string, c: Cursor, strict: bool)
    requires c.token.FUNC?
    ensures var d := c.(text := Upper(c.text));
            Due(src, d) == Due(src, c) && Risks(src, d, strict) == Risks(src, c, strict)
  {
    hide TokenAt;
    assert Upper(Upper(c.text)) == Upper(c.text);
  }

  // ---------------------------------------------------------------- literals and fields

  function LitPiece(c: Cursor, tick: bool): Piece {
    if c.token.STRLIT? then Quoted(c.text, tick) else Word(c.text)
  }

  /** The cursor after a field name or a qualified field name at c. */
  function ReadField(src: string, c: Cursor): Option<Cursor> {
    var dot := NextCursor(src, c);
    if !c.token.ID? || !NextOk(src, c) then None
    else if !dot.token.DOT? then Some(dot)
    else
      var name := NextCursor(src, dot);
      if NextOk(src, dot) && name.token.ID? && NextOk(src, name) then Some(NextCursor(src, name)) else None
  }

  function FieldPieces(src: string, c: Cursor): seq<Piece> {
    var dot := NextCursor(src, c);
    if dot.token.DOT? then [Word(c.text), Word("."), Word(NextCursor(src, dot).text)] else [Word(c.text)]
  }

  // ---------------------------------------------------------------- chains

  datatype Name = Name(qualifier: Option<string>, name: string)

  datatype Operand = Variable(name: string) | Literal(quoted: bool, text: string) | Column(column: Name) | Null

  /** The operand of the translation: a placeholder in place of a variable. */
  datatype Target = Placeholder(host: Host) | Same(operand: Operand)

  /** What is said of a field: a comparison, `negated` when NOT stands before the operand,
      or membership in a list, `negated` when NOT stands before IN. */
  datatype Test<O> =
    | Compare(op: Token, negated: bool, operand: O)
    | Member(negated: bool, list: seq<Value>)

  /** A condition, `open` when '(' comes before and `close` when ')' follows. */
  datatype Cond<O> = Cond(open: bool, column: Name, test: Test<O>, close: bool)

  /** What leads from a condition to the next: AND or OR as written, or nothing at all. */
  datatype Link = Conj(conj: bool, text: string) | Bare

  datatype Chain<O> = Last(cond: Cond<O>) | Join(cond: Cond<O>, link: Link, rest: Chain<O>)

  /** The operators of a comparison. */
  predicate Operator(t: Token) {
    t.EQ? || t.GT? || t.LT? || t.GTEQ? || t.LTEQ? || t.NEQ? || t.LIKE? || t.IS?
  }

  predicate Conjunction(t: Token) {
    t.AND? || t.OR?
  }

  /** Neither a condition nor a parenthesis goes on. */
  predicate Stops(t: Token) {
    !t.RPAR? && !Conjunction(t)
  }

  /** No condition begins. */
  predicate Leaves(t: Token) {
    !t.ID? && !t.LPAR?
  }

  function OperatorText(t: Token): Option<string> {
    match t
    case EQ => Some(" = ")
    case GT => Some(" > ")
    case LT => Some(" < ")
    case GTEQ => Some(" >= ")
    case LTEQ => Some(" <= ")
    case NEQ => Some(" <> ")
    case LIKE => Some(" LIKE ")
    case IS => Some(" IS ")
    case _ => None
  }

  lemma OperatorKinds(t: Token)
    ensures OperatorText(t).Some? <==> Operator(t)
  {
  }

  // ---------------------------------------------------------------- what the source spells

  function NamePieces(n: Name): seq<Piece> {
    if n.qualifier.Some? then [Word(n.qualifier.value), Word("."), Word(n.name)] else [Word(n.name)]
  }

  /** Past a field that spells n. */
  function NameEnd(src: string, c: Cursor, n: Name): Option<Cursor> {
    if FieldPieces(src, c) == NamePieces(n) then ReadField(src, c) else None
  }

  /** Past an operand that spells o. */
  function OperandEnd(src: string, c: Cursor, o: Operand): Option<Cursor> {
    match o
    case Variable(v) => TakeText(src, c, VAR, v)
    case Literal(quoted, text) => TakeText(src, c, if quoted then STRLIT else NUM, text)
    case Column(n) => NameEnd(src, c, n)
    case Null => Take(src, c, NULL)
  }

  lemma OperandToken(src: string, c: Cursor, o: Operand)
    requires OperandEnd(src, c, o).Some?
    ensures c.token.VAR? ==> o == Variable(c.text)
    ensures !c.token.VAR? ==> !o.Variable?
    ensures !c.token.NOT? && (c.token.NULL? <==> o.Null?)
  {
  }

  /** A value of VALUES, of SET or of a list. */
  datatype Value = Number(text: string) | Quote(text: string) | Var(name: string) | Ident(text: string)

  function ValueEnd(src: string, c: Cursor, v: Value): Option<Cursor> {
    match v
    case Number(text) => TakeText(src, c, NUM, text)
    case Quote(text) => TakeText(src, c, STRLIT, text)
    case Var(name) => TakeText(src, c, VAR, name)
    case Ident(text) => TakeText(src, c, ID, text)
  }

  function ValuePiece(v: Value): Piece {
    match v
    case Number(text) => Word(text)
    case Quote(text) => Quoted(text, false)
    case Var(name) => Unbound(VarName(name))
    case Ident(text) => Word(text)
  }

  function ValuesPieces(vs: seq<Value>): seq<Piece> {
    if vs == [] then []
    else if |vs| == 1 then [ValuePiece(vs[0])]
    else [ValuePiece(vs[0]), Word(",")] + ValuesPieces(vs[1..])
  }

  /** Literals and the commas between them; there may be none. */
  function LitsEnd(src: string, c: Cursor, vs: seq<Value>): Option<Cursor>
    decreases |vs|
  {
    if vs == [] then if c.token.NUM? || c.token.STRLIT? then None else Some(c)
    else if !(vs[0].Number? || vs[0].Quote?) then None
    else
      var e := ValueEnd(src, c, vs[0]);
      if e.None? then None
      else if |vs| == 1 then
        if e.value.token.COMMA? || e.value.token.NUM? || e.value.token.STRLIT? then None else e
      else
        var next := Take(src, e.value, COMMA);
        if next.None? then None else LitsEnd(src, next.value, vs[1..])
  }

  lemma LitsStart(src: string, c: Cursor, vs: seq<Value>)
    requires LitsEnd(src, c, vs).Some?
    ensures vs != [] <==> c.token.NUM? || c.token.STRLIT?
    ensures vs != [] ==> vs[0].Number? || vs[0].Quote?
  {
    hide NextOk, NextCursor;
  }

  function ListHeadEnd(src: string, c: Cursor): Option<Cursor> {
    var e := Take(src, c, IN);
    if e.None? then None else Take(src, e.value, LPAR)
  }

  /** IN and its list of literals. */
  function ListEnd(src: string, c: Cursor, vs: seq<Value>): Option<Cursor> {
    var e := ListHeadEnd(src, c);
    if e.None? || e.value.token.SELECT? then None
    else
      var r := LitsEnd(src, e.value, vs);
      if r.None? then None else Take(src, r.value, RPAR)
  }

  lemma ListStart(src: string, c: Cursor, vs: seq<Value>)
    requires ListEnd(src, c, vs).Some?
    ensures c.token.IN?
  {
    hide NextOk, NextCursor;
  }

  function ListPieces(vs: seq<Value>): seq<Piece> {
    [Word(" IN "), Open] + ValuesPieces(vs) + [Close]
  }

  /** Past the '(' if there is to be one. */
  function OpenEnd(src: string, c: Cursor, open: bool): Option<Cursor> {
    if open then Take(src, c, LPAR) else Some(c)
  }

  /** Past NOT if there is to be one. */
  function NotEnd(src: string, c: Cursor, negated: bool): Option<Cursor> {
    if negated then Take(src, c, NOT) else Some(c)
  }

  /** Past the operator, a NOT and the operand. */
  function CompareEnd(src: string, c: Cursor, op: Token, negated: bool, o: Operand): Option<Cursor> {
    if !Operator(op) then None
    else
      var r := Take(src, c, op);
      if r.None? then None
      else
        var e := NotEnd(src, r.value, negated);
        if e.None? then None else OperandEnd(src, e.value, o)
  }

  /** Where the operand of a spelled comparison begins. */
  lemma CompareParts(src: string, c: Cursor, op: Token, negated: bool, o: Operand)
    requires CompareEnd(src, c, op, negated, o).Some?
    ensures Operator(op) && c.token == op && NextOk(src, c)
    ensures var next := NextCursor(src, c);
            && (if negated then next.token.NOT? && NextOk(src, next)
                else !next.token.NOT? && (next.token.NULL? <==> o.Null?))
            && NotEnd(src, next, negated).Some?
            && OperandEnd(src, NotEnd(src, next, negated).value, o) == CompareEnd(src, c, op, negated, o)
  {
    hide NextOk, NextCursor, OperandEnd;
    if !negated {
      OperandToken(src, NextCursor(src, c), o);
    }
  }

  /** Past NOT, IN and the list. */
  function MemberEnd(src: string, c: Cursor, negated: bool, list: seq<Value>): Option<Cursor> {
    var e := NotEnd(src, c, negated);
    if e.None? then None else ListEnd(src, e.value, list)
  }

  function SaidEnd(src: string, c: Cursor, test: Test<Operand>): Option<Cursor> {
    match test
    case Compare(op, negated, operand) => CompareEnd(src, c, op, negated, operand)
    case Member(negated, list) => MemberEnd(src, c, negated, list)
  }

  lemma SaidStart(src: string, c: Cursor, test: Test<Operand>)
    requires SaidEnd(src, c, test).Some?
    ensures test.Member? <==> c.token.NOT? || c.token.IN?
    ensures test.Member? ==> (c.token.NOT? <==> test.negated)
    ensures test.Compare? ==> c.token == test.op && Operator(c.token)
  {
    hide NextOk, NextCursor, OperandEnd, LitsEnd;
  }

  /** Past a field and what is said of it. */
  function TestEnd(src: string, c: Cursor, k: Cond<Operand>): Option<Cursor> {
    var e := NameEnd(src, c, k.column);
    if e.None? then None else SaidEnd(src, e.value, k.test)
  }

  /** Past the ')' if there is to be one. */
  function CloseEnd(src: string, c: Cursor, close: bool): Option<Cursor> {
    if close then Take(src, c, RPAR) else if c.token.RPAR? then None else Some(c)
  }

  /** The parentheses open after a condition. */
  function DepthAfter(k: Cond<Operand>, depth: nat): int {
    depth + (if k.open then 1 else 0) - if k.close then 1 else 0
  }

  /** Past a whole condition with its parentheses; behind a list no ')' is looked for. */
  function CondEnd(src: string, c: Cursor, k: Cond<Operand>): Option<Cursor> {
    var start := OpenEnd(src, c, k.open);
    if start.None? then None
    else
      var e := TestEnd(src, start.value, k);
      if e.None? then None
      else if k.test.Member? then if k.close then None else e
      else CloseEnd(src, e.value, k.close)
  }

  /** Past AND or OR; nothing links a list to the next condition. */
  function LinkEnd(src: string, c: Cursor, test: Test<Operand>, link: Link): Option<Cursor> {
    match link
    case Conj(conj, text) => if test.Member? then None else TakeText(src, c, if conj then AND else OR, text)
    case Bare => if test.Member? then Some(c) else None
  }

  /** No condition, parenthesis or conjunction that parseConditions would read follows. */
  predicate Ends(test: Test<Operand>, t: Token) {
    if test.Member? then Leaves(t) else Stops(t)
  }

  /** From cursor c the source spells exactly this chain inside `depth` parentheses;
      the result is the cursor behind it, where parseConditions reads no further. */
  function ChainEnd(src: string, c: Cursor, ch: Chain<Operand>, depth: nat): Option<Cursor>
    decreases ch
  {
    var e := CondEnd(src, c, ch.cond);
    var d := DepthAfter(ch.cond, depth);
    if e.None? || d < 0 then None
    else
      match ch
      case Last(k) => if Ends(k.test, e.value.token) then e else None
      case Join(k, link, rest) =>
        var next := LinkEnd(src, e.value, k.test, link);
        if next.None? then None else ChainEnd(src, next.value, rest, d)
  }

  // ---------------------------------------------------------------- what is accepted

  /** Whether an IS was seen once the test is read. */
  predicate SeenAfter(test: Test<Operand>, seen: bool) {
    seen || (test.Compare? && test.op.IS?)
  }

  /** Once an IS was seen, a comparison needs NULL or NOT; before that NOT is refused. */
  predicate TestRule(test: Test<Operand>, seen: bool) {
    test.Compare? ==> if SeenAfter(test, seen) then test.negated || test.operand.Null? else !test.negated
  }

  /** A spelled chain is accepted: its tests are, one after the other, and no parenthesis
      is open where it ends with a list. */
  predicate ChainRule(ch: Chain<Operand>, seen: bool, depth: int) {
    && TestRule(ch.cond.test, seen)
    && var d := depth + (if ch.cond.open then 1 else 0) - (if ch.cond.close then 1 else 0);
       match ch
       case Last(k) => k.test.Member? ==> d == 0
       case Join(k, _, rest) => ChainRule(rest, SeenAfter(k.test, seen), d)
  }

  /** The parentheses a chain leaves open. */
  function ChainDepth(ch: Chain<Operand>, depth: int): int {
    var d := depth + (if ch.cond.open then 1 else 0) - if ch.cond.close then 1 else 0;
    match ch
    case Last(_) => d
    case Join(_, _, rest) => ChainDepth(rest, d)
  }

  function Tests(ch: Chain<Operand>): (ts: seq<Test<Operand>>)
    ensures ts != []
  {
    [ch.cond.test] + if ch.Join? then Tests(ch.rest) else []
  }

  predicate AsksIs(t: Test<Operand>) {
    t.Compare? && t.op == IS
  }

  /** An IS stands at or before test k, or was seen before the first. */
  predicate IsThrough(ts: seq<Test<Operand>>, seen: bool, k: nat)
    requires k < |ts|
  {
    seen || exists j :: 0 <= j <= k && AsksIs(ts[j])
  }

  lemma IsFirst(t: Test<Operand>, ts: seq<Test<Operand>>, seen: bool)
    ensures IsThrough([t] + ts, seen, 0) == SeenAfter(t, seen)
  {
    assert ([t] + ts)[0] == t;
  }

  lemma IsNext(t: Test<Operand>, ts: seq<Test<Operand>>, seen: bool, k: nat)
    requires k < |ts|
    ensures IsThrough([t] + ts, seen, k + 1) == IsThrough(ts, SeenAfter(t, seen), k)
  {
    var all := [t] + ts;
    if j :| 0 <= j <= k + 1 && AsksIs(all[j]) {
      assert j == 0 || AsksIs(ts[j - 1]);
    }
    if j :| 0 <= j <= k && AsksIs(ts[j]) {
      assert AsksIs(all[j + 1]);
    }
    assert all[0] == t;
  }

  /** A comparison has NULL or NOT where an IS stands at or before it, and no NOT where
      none does. */
  predicate Passing(t: Test<Operand>, asked: bool) {
    t.Compare? ==> (asked ==> t.negated || t.operand == Null) && (!asked ==> !t.negated)
  }

  predicate AllPass(ts: seq<Test<Operand>>, seen: bool) {
    forall k :: 0 <= k < |ts| ==> Passing(ts[k], IsThrough(ts, seen, k))
  }

  lemma AllPassFirst(t: Test<Operand>, ts: seq<Test<Operand>>, seen: bool)
    ensures AllPass([t] + ts, seen) <==> TestRule(t, seen) && AllPass(ts, SeenAfter(t, seen))
  {
    hide Passing, IsThrough, SeenAfter, TestRule;
    var all := [t] + ts;
    IsFirst(t, ts, seen);
    assert Passing(t, SeenAfter(t, seen)) == TestRule(t, seen) by {
      RulePasses(t, seen);
    }
    forall k | 0 <= k < |ts|
      ensures Passing(all[k + 1], IsThrough(all, seen, k + 1))
           == Passing(ts[k], IsThrough(ts, SeenAfter(t, seen), k))
    {
      IsNext(t, ts, seen, k);
    }
    assert all[0] == t;
    if AllPass(all, seen) {
      assert Passing(all[0], IsThrough(all, seen, 0));
      forall k | 0 <= k < |ts|
        ensures Passing(ts[k], IsThrough(ts, SeenAfter(t, seen), k))
      {
        assert Passing(all[k + 1], IsThrough(all, seen, k + 1));
      }
    }
    if TestRule(t, seen) && AllPass(ts, SeenAfter(t, seen)) {
      forall k | 0 <= k < |all|
        ensures Passing(all[k], IsThrough(all, seen, k))
      {
        assert k > 0 ==> Passing(ts[k - 1], IsThrough(ts, SeenAfter(t, seen), k - 1));
      }
    }
  }

  lemma RulePasses(t: Test<Operand>, seen: bool)
    ensures Passing(t, SeenAfter(t, seen)) <==> TestRule(t, seen)
  {
  }

  /** The rule of a chain: every test passes, and a chain that ends with a list has
      closed its parentheses. */
  lemma {:induction false} ChainRuleIff(ch: Chain<Operand>, seen: bool, depth: int)
    ensures var ts := Tests(ch);
            ChainRule(ch, seen, depth) <==>
              AllPass(ts, seen) && (ts[|ts| - 1].Member? ==> ChainDepth(ch, depth) == 0)
    decreases ch
  {
    hide TestRule, SeenAfter, AllPass;
    var t, d := ch.cond.test, depth + (if ch.cond.open then 1 else 0) - if ch.cond.close then 1 else 0;
    if ch.Join? {
      AllPassFirst(t, Tests(ch.rest), seen);
      ChainRuleIff(ch.rest, SeenAfter(t, seen), d);
    } else {
      AllPassFirst(t, [], seen);
      NonePass(SeenAfter(t, seen));
    }
  }

  lemma NonePass(seen: bool)
    ensures AllPass([], seen)
  {
  }

  // ---------------------------------------------------------------- what the translator writes

  function OperandVars(o: Operand): seq<string> {
    if o.Variable? then [o.name] else []
  }

  function TestVars(test: Test<Operand>): seq<string> {
    if test.Compare? then OperandVars(test.operand) else []
  }

  /** The variables of a chain in order. */
  function ChainVars(ch: Chain<Operand>): seq<string> {
    TestVars(ch.cond.test) + if ch.Join? then ChainVars(ch.rest) else []
  }

  function TranslateOperand(o: Operand, lookup: map<string, nat>, n: nat, act: nat): Target {
    if o.Variable? then Placeholder(Host(VarName(o.name), ParamOf(lookup, o.name), n, act)) else Same(o)
  }

  function TranslateTest(test: Test<Operand>, lookup: map<string, nat>, n: nat, act: nat): Test<Target> {
    match test
    case Compare(op, negated, operand) => Compare(op, negated, TranslateOperand(operand, lookup, n, act))
    case Member(negated, list) => Member(negated, list)
  }

  function TranslateCond(k: Cond<Operand>, lookup: map<string, nat>, n: nat, act: nat): Cond<Target> {
    Cond(k.open, k.column, TranslateTest(k.test, lookup, n, act), k.close)
  }

  /** The same chain with every @x replaced by the next placeholder :px. */
  function Translate(ch: Chain<Operand>, lookup: map<string, nat>, n: nat, act: nat): Chain<Target> {
    var k := TranslateCond(ch.cond, lookup, n, act);
    match ch
    case Last(_) => Last(k)
    case Join(_, link, rest) =>
      Join(k, link, Translate(rest, lookup, n + |TestVars(ch.cond.test)|, act))
  }

  /** An operand; a literal of a pattern has a tick inside its quotes. */
  function TargetPieces(t: Target, tick: bool): seq<Piece> {
    match t
    case Placeholder(h) => [Bound(h)]
    case Same(Literal(quoted, text)) => [if quoted then Quoted(text, tick) else Word(text)]
    case Same(Column(n)) => NamePieces(n)
    case Same(Variable(v)) => [Word(v)]
    case Same(Null) => [Word(" NULL ")]
  }

  function OpenPieces(open: bool): seq<Piece> {
    if open then [Open] else []
  }

  function NotPieces(negated: bool, text: string): seq<Piece> {
    if negated then [Word(text)] else []
  }

  /** The operator, and the NOT behind it. */
  function OperatorPieces(op: Token, negated: bool): seq<Piece> {
    [Word(OperatorText(op).GetOr(""))] + NotPieces(negated, "NOT ")
  }

  /** TERMINATE behind a pattern, and the blank behind every comparison. */
  function TerminatorPieces(inlike: bool): seq<Piece> {
    if inlike then [Word(" TERMINATE \"`\" "), Word(" ")] else [Word(" ")]
  }

  function ComparedPieces(op: Token, negated: bool, t: Target): seq<Piece> {
    OperatorPieces(op, negated) + TargetPieces(t, op.LIKE?)
  }

  function ComparePieces(op: Token, negated: bool, t: Target): seq<Piece> {
    ComparedPieces(op, negated, t) + TerminatorPieces(op.LIKE?)
  }

  function MemberPieces(negated: bool, list: seq<Value>): seq<Piece> {
    NotPieces(negated, " NOT ") + ListPieces(list)
  }

  function SaidPieces(test: Test<Target>): seq<Piece> {
    match test
    case Compare(op, negated, operand) => ComparePieces(op, negated, operand)
    case Member(negated, list) => MemberPieces(negated, list)
  }

  function TestPieces(k: Cond<Target>): seq<Piece> {
    NamePieces(k.column) + SaidPieces(k.test)
  }

  function ClosePieces(close: bool): seq<Piece> {
    if close then [Close, Word(" ")] else []
  }

  function CondPieces(k: Cond<Target>): seq<Piece> {
    OpenPieces(k.open) + TestPieces(k) + ClosePieces(k.close)
  }

  function LinkPieces(link: Link): seq<Piece> {
    if link.Conj? then [Word(link.text), Word(" ")] else []
  }

  function ChainPieces(ch: Chain<Target>): seq<Piece> {
    match ch
    case Last(k) => CondPieces(k)
    case Join(k, link, rest) => CondPieces(k) + LinkPieces(link) + ChainPieces(rest)
  }

  // ---------------------------------------------------------------- placeholders of a chain

  lemma {:induction false} HostsOfConcat(a: seq<Piece>, b: seq<Piece>)
    ensures HostsOf(a + b) == HostsOf(a) + HostsOf(b)
  {
    if b == [] {
      assert a + b == a;
    } else {
      assert (a + b)[..|a + b| - 1] == a + b[..|b| - 1];
      HostsOfConcat(a, b[..|b| - 1]);
    }
  }

  lemma HostsOfNone(ps: seq<Piece>)
    requires forall k :: 0 <= k < |ps| ==> !ps[k].Bound?
    ensures HostsOf(ps) == []
  {
  }

  lemma HostsOfTarget(o: Operand, lookup: map<string, nat>, n: nat, act: nat, tick: bool)
    ensures HostsOf(TargetPieces(TranslateOperand(o, lookup, n, act), tick)) == HostsFor(OperandVars(o), lookup, n, act)
  {
    var t := TranslateOperand(o, lookup, n, act);
    if t.Placeholder? {
      HostsOfSnoc([], Bound(t.host));
      assert TargetPieces(t, tick) == [] + [Bound(t.host)];
    } else {
      HostsOfNone(TargetPieces(t, tick));
    }
  }

  lemma {:induction false} HostsOfValues(vs: seq<Value>)
    ensures forall k :: 0 <= k < |ValuesPieces(vs)| ==> !ValuesPieces(vs)[k].Bound?
  {
    if |vs| > 1 {
      HostsOfValues(vs[1..]);
    }
  }

  lemma HostsOfMember(negated: bool, list: seq<Value>)
    ensures HostsOf(MemberPieces(negated, list)) == []
  {
    HostsOfValues(list);
    HostsOfNone(MemberPieces(negated, list));
  }

  lemma HostsOfCompare(op: Token, negated: bool, o: Operand, lookup: map<string, nat>, n: nat, act: nat)
    ensures HostsOf(ComparePieces(op, negated, TranslateOperand(o, lookup, n, act)))
         == HostsFor(OperandVars(o), lookup, n, act)
  {
    hide HostsOf, HostsFor, OperandVars, TargetPieces, OperatorText, TranslateOperand;
    var t := TranslateOperand(o, lookup, n, act);
    HostsOfTarget(o, lookup, n, act, op.LIKE?);
    HostsOfConcat(ComparedPieces(op, negated, t), TerminatorPieces(op.LIKE?));
    HostsOfConcat(OperatorPieces(op, negated), TargetPieces(t, op.LIKE?));
    HostsOfNone(OperatorPieces(op, negated));
    HostsOfNone(TerminatorPieces(op.LIKE?));
  }

  lemma HostsOfSaid(test: Test<Operand>, lookup: map<string, nat>, n: nat, act: nat)
    ensures HostsOf(SaidPieces(TranslateTest(test, lookup, n, act))) == HostsFor(TestVars(test), lookup, n, act)
  {
    match test
    case Compare(op, negated, operand) => HostsOfCompare(op, negated, operand, lookup, n, act);
    case Member(negated, list) => HostsOfMember(negated, list);
  }

  lemma HostsOfCond(k: Cond<Operand>, lookup: map<string, nat>, n: nat, act: nat)
    ensures HostsOf(CondPieces(TranslateCond(k, lookup, n, act))) == HostsFor(TestVars(k.test), lookup, n, act)
  {
    hide HostsOf, HostsFor, TestVars, SaidPieces, NamePieces, TranslateTest;
    var said := SaidPieces(TranslateTest(k.test, lookup, n, act));
    HostsOfSaid(k.test, lookup, n, act);
    HostsOfConcat(OpenPieces(k.open) + (NamePieces(k.column) + said), ClosePieces(k.close));
    HostsOfConcat(OpenPieces(k.open), NamePieces(k.column) + said);
    HostsOfConcat(NamePieces(k.column), said);
    HostsOfNone(OpenPieces(k.open));
    HostsOfNone(ClosePieces(k.close));
    HostsOfName(k.column);
  }

  lemma HostsOfName(n: Name)
    ensures HostsOf(NamePieces(n)) == []
  {
    HostsOfNone(NamePieces(n));
  }

  /** The placeholders in the text of a chain are those of its variables. */
  lemma {:induction false} HostsOfChain(ch: Chain<Operand>, lookup: map<string, nat>, n: nat, act: nat)
    ensures HostsOf(ChainPieces(Translate(ch, lookup, n, act))) == HostsFor(ChainVars(ch), lookup, n, act)
  {
    hide HostsOf, CondPieces, HostsFor, TranslateCond;
    var vs := TestVars(ch.cond.test);
    HostsOfCond(ch.cond, lookup, n, act);
    if ch.Join? {
      var first := CondPieces(TranslateCond(ch.cond, lookup, n, act));
      var join := LinkPieces(ch.link);
      HostsOfConcat(first + join, ChainPieces(Translate(ch.rest, lookup, n + |vs|, act)));
      HostsOfConcat(first, join);
      HostsOfNone(join);
      HostsOfChain(ch.rest, lookup, n + |vs|, act);
      HostsForConcat(vs, ChainVars(ch.rest), lookup, n, act);
    } else {
      assert ChainVars(ch) == vs;
    }
  }

  // ---------------------------------------------------------------- the text of a chain

  function NameText(n: Name): string {
    if n.qualifier.Some? then n.qualifier.value + "." + n.name else n.name
  }

  function OperandText(o: Operand, variable: string -> string, tick: bool): string {
    match o
    case Variable(v) => variable(v)
    case Literal(quoted, text) => if quoted then "'" + text + (if tick then "`" else "") + "'" else text
    case Column(n) => NameText(n)
    case Null => " NULL "
  }

  function ValueText(v: Value): string {
    match v
    case Number(text) => text
    case Quote(text) => "'" + text + "'"
    case Var(name) => Renamed(name)
    case Ident(text) => text
  }

  function ValuesText(vs: seq<Value>): string {
    if vs == [] then ""
    else if |vs| == 1 then ValueText(vs[0])
    else ValueText(vs[0]) + "," + ValuesText(vs[1..])
  }

  function SaidText(test: Test<Operand>, variable: string -> string): string {
    match test
    case Compare(op, negated, operand) =>
      OperatorText(op).GetOr("") + (if negated then "NOT " else "") + OperandText(operand, variable, op.LIKE?)
      + (if op.LIKE? then " TERMINATE \"`\" " else "") + " "
    case Member(negated, list) =>
      (if negated then " NOT " else "") + " IN (" + ValuesText(list) + ")"
  }

  function CondText(k: Cond<Operand>, variable: string -> string): string {
    (if k.open then "(" else "") + NameText(k.column) + SaidText(k.test, variable) + if k.close then ") " else ""
  }

  /** A chain written out, its variables as `variable` shows them. */
  function ChainText(ch: Chain<Operand>, variable: string -> string): string {
    match ch
    case Last(k) => CondText(k, variable)
    case Join(k, link, rest) =>
      CondText(k, variable) + (if link.Conj? then link.text + " " else "") + ChainText(rest, variable)
  }

  /** "@x" as ":px". */
  function Renamed(v: string): string {
    ":p" + VarName(v)
  }

  lemma NameRenders(n: Name)
    ensures RenderAll(NamePieces(n)) == NameText(n)
  {
    hide RenderAll;
    if n.qualifier.Some? {
      RenderConcat([Word(n.qualifier.value)], [Word("."), Word(n.name)]);
      RenderConcat([Word(".")], [Word(n.name)]);
      assert [Word(n.qualifier.value)] + [Word("."), Word(n.name)] == NamePieces(n);
      assert [Word(".")] + [Word(n.name)] == [Word("."), Word(n.name)];
      RenderOne(Word(n.qualifier.value));
      RenderOne(Word("."));
      RenderOne(Word(n.name));
    } else {
      RenderOne(Word(n.name));
    }
  }

  lemma OperandRenders(o: Operand, lookup: map<string, nat>, n: nat, act: nat, tick: bool)
    ensures RenderAll(TargetPieces(TranslateOperand(o, lookup, n, act), tick)) == OperandText(o, Renamed, tick)
  {
    hide RenderAll, NamePieces, NameText;
    match o
    case Variable(v) => RenderOne(Bound(Host(VarName(v), ParamOf(lookup, v), n, act)));
    case Literal(quoted, text) => RenderOne(if quoted then Quoted(text, tick) else Word(text));
    case Column(name) => NameRenders(name);
    case Null => RenderOne(Word(" NULL "));
  }

  lemma {:induction false} ValuesRender(vs: seq<Value>)
    ensures RenderAll(ValuesPieces(vs)) == ValuesText(vs)
  {
    hide RenderAll;
    if vs == [] {
      RenderNone();
    } else {
      ValueRenders(vs[0]);
      if |vs| > 1 {
        ValuesRender(vs[1..]);
        assert [ValuePiece(vs[0])] + [Word(",")] == [ValuePiece(vs[0]), Word(",")];
        RenderConcat([ValuePiece(vs[0]), Word(",")], ValuesPieces(vs[1..]));
        RenderConcat([ValuePiece(vs[0])], [Word(",")]);
        RenderOne(Word(","));
      }
    }
  }

  lemma ValueRenders(v: Value)
    ensures RenderAll([ValuePiece(v)]) == ValueText(v)
  {
    hide RenderAll;
    RenderOne(ValuePiece(v));
    if v.Quote? {
      assert "'" + v.text + "" + "'" == "'" + v.text + "'";
    }
  }

  lemma MemberRenders(negated: bool, list: seq<Value>)
    ensures RenderAll(MemberPieces(negated, list))
         == (if negated then " NOT " else "") + " IN (" + ValuesText(list) + ")"
  {
    hide RenderAll, ValuesPieces, ValuesText;
    RenderConcat(NotPieces(negated, " NOT "), ListPieces(list));
    NotRenders(negated, " NOT ");
    RenderConcat([Word(" IN "), Open] + ValuesPieces(list), [Close]);
    RenderConcat([Word(" IN "), Open], ValuesPieces(list));
    assert [Word(" IN ")] + [Open] == [Word(" IN "), Open];
    RenderConcat([Word(" IN ")], [Open]);
    RenderOne(Word(" IN "));
    RenderOne(Open);
    RenderOne(Close);
    ValuesRender(list);
  }

  lemma NotRenders(negated: bool, text: string)
    ensures RenderAll(NotPieces(negated, text)) == if negated then text else ""
  {
    hide RenderAll;
    RenderNone();
    RenderOne(Word(text));
  }

  lemma CompareRenders(op: Token, negated: bool, o: Operand, lookup: map<string, nat>, n: nat, act: nat)
    ensures RenderAll(ComparePieces(op, negated, TranslateOperand(o, lookup, n, act)))
         == SaidText(Compare(op, negated, o), Renamed)
  {
    hide RenderAll, OperatorText, TargetPieces, TranslateOperand, OperandText;
    var t := TranslateOperand(o, lookup, n, act);
    var word := [Word(OperatorText(op).GetOr(""))];
    RenderConcat(ComparedPieces(op, negated, t), TerminatorPieces(op.LIKE?));
    RenderConcat(OperatorPieces(op, negated), TargetPieces(t, op.LIKE?));
    RenderConcat(word, NotPieces(negated, "NOT "));
    RenderOne(Word(OperatorText(op).GetOr("")));
    NotRenders(negated, "NOT ");
    OperandRenders(o, lookup, n, act, op.LIKE?);
    TerminatorRenders(op.LIKE?);
  }

  lemma TerminatorRenders(inlike: bool)
    ensures RenderAll(TerminatorPieces(inlike)) == (if inlike then " TERMINATE \"`\" " else "") + " "
  {
    hide RenderAll;
    var words := [Word(" TERMINATE \"`\" ")];
    RenderConcat(words, [Word(" ")]);
    assert words + [Word(" ")] == TerminatorPieces(true);
    RenderOne(Word(" TERMINATE \"`\" "));
    RenderOne(Word(" "));
  }

  lemma SaidRenders(test: Test<Operand>, lookup: map<string, nat>, n: nat, act: nat)
    ensures RenderAll(SaidPieces(TranslateTest(test, lookup, n, act))) == SaidText(test, Renamed)
  {
    hide RenderAll, ComparePieces, MemberPieces;
    match test
    case Compare(op, negated, operand) => CompareRenders(op, negated, operand, lookup, n, act);
    case Member(negated, list) => MemberRenders(negated, list);
  }

  lemma ParenthesesRender(open: bool, close: bool)
    ensures RenderAll(OpenPieces(open)) == if open then "(" else ""
    ensures RenderAll(ClosePieces(close)) == if close then ") " else ""
  {
    RenderOne(Open);
    RenderConcat([Close], [Word(" ")]);
    RenderOne(Close);
    RenderOne(Word(" "));
    assert [Close] + [Word(" ")] == ClosePieces(true);
  }

  lemma CondRenders(k: Cond<Operand>, lookup: map<string, nat>, n: nat, act: nat)
    ensures RenderAll(CondPieces(TranslateCond(k, lookup, n, act))) == CondText(k, Renamed)
  {
    hide RenderAll, SaidPieces, NamePieces, TranslateTest, OpenPieces, ClosePieces, NameText, SaidText;
    var said := SaidPieces(TranslateTest(k.test, lookup, n, act));
    RenderConcat(OpenPieces(k.open) + (NamePieces(k.column) + said), ClosePieces(k.close));
    RenderConcat(OpenPieces(k.open), NamePieces(k.column) + said);
    RenderConcat(NamePieces(k.column), said);
    NameRenders(k.column);
    SaidRenders(k.test, lookup, n, act);
    ParenthesesRender(k.open, k.close);
  }

  /** The translation of a chain reads like the chain with every @x renamed to :px. */
  lemma {:induction false} TranslationRenames(ch: Chain<Operand>, lookup: map<string, nat>, n: nat, act: nat)
    ensures RenderAll(ChainPieces(Translate(ch, lookup, n, act))) == ChainText(ch, Renamed)
  {
    hide RenderAll, CondPieces, CondText, TranslateCond;
    CondRenders(ch.cond, lookup, n, act);
    if ch.Join? {
      var n' := n + |TestVars(ch.cond.test)|;
      var first, rest := CondPieces(TranslateCond(ch.cond, lookup, n, act)),
        ChainPieces(Translate(ch.rest, lookup, n', act));
      TranslationRenames(ch.rest, lookup, n', act);
      RenderConcat(first + LinkPieces(ch.link), rest);
      RenderConcat(first, LinkPieces(ch.link));
      LinkRenders(ch.link);
    }
  }

  lemma LinkRenders(link: Link)
    ensures RenderAll(LinkPieces(link)) == if link.Conj? then link.text + " " else ""
  {
    hide RenderAll;
    RenderNone();
    if link.Conj? {
      assert [Word(link.text)] + [Word(" ")] == [Word(link.text), Word(" ")];
      RenderConcat([Word(link.text)], [Word(" ")]);
      RenderOne(Word(link.text));
      RenderOne(Word(" "));
    }
  }

  // ---------------------------------------------------------------- reading on

  /** A reader of the source inside `depth` parentheses, what it has written, and the
      next index of the activation it writes for. */
  datatype Reader = Reader(
    src: string, cursor: Cursor, depth: nat, out: seq<Piece>, hosts: seq<Host>, lookup: map<string, nat>,
    act: nat, acts: nat, n: nat)

  /** Further on, with these pieces and the placeholders of these variables written. */
  function Further(r: Reader, c: Cursor, pieces: seq<Piece>, vs: seq<string>): Reader {
    r.(cursor := c, out := r.out + pieces, hosts := r.hosts + HostsFor(vs, r.lookup, r.n, r.act), n := r.n + |vs|)
  }

  /** Condition k can be read. */
  predicate Readable(r: Reader, k: Cond<Operand>) {
    CondEnd(r.src, r.cursor, k).Some? && DepthAfter(k, r.depth) >= 0
  }

  /** Where `(field op operand` ends. */
  function HeadEnd(src: string, c: Cursor, k: Cond<Operand>): Option<Cursor> {
    var o := OpenEnd(src, c, k.open);
    if o.None? then None else TestEnd(src, o.value, k)
  }

  /** The reader behind a condition but for its ')'. */
  function PastHead(r: Reader, k: Cond<Operand>): Reader {
    Further(r, HeadEnd(r.src, r.cursor, k).GetOr(r.cursor),
            OpenPieces(k.open) + TestPieces(TranslateCond(k, r.lookup, r.n, r.act)), TestVars(k.test))
    .(depth := r.depth + if k.open then 1 else 0)
  }

  /** The reader behind the ')' if there is to be one. */
  function PastTail(r: Reader, close: bool): Reader {
    if close && r.depth > 0 then
      r.(cursor := NextCursor(r.src, r.cursor), out := r.out + ClosePieces(true), depth := r.depth - 1)
    else r
  }

  lemma PastTailNone(r: Reader)
    ensures PastTail(r, false) == r
  {
  }

  function PastCond(r: Reader, k: Cond<Operand>): Reader {
    PastTail(PastHead(r, k), k.close)
  }

  /** The reader behind AND or OR. */
  function PastJoin(r: Reader): Reader {
    r.(cursor := NextCursor(r.src, r.cursor), out := r.out + [Word(r.cursor.text), Word(" ")])
  }

  function PastLink(r: Reader, link: Link): Reader {
    if link.Conj? then PastJoin(r) else r
  }

  lemma ReadableParts(r: Reader, k: Cond<Operand>)
    requires Readable(r, k)
    ensures HeadEnd(r.src, r.cursor, k).Some?
    ensures k.close ==> k.test.Compare? && PastHead(r, k).depth > 0 && PastHead(r, k).cursor.token.RPAR?
    ensures k.close ==> NextOk(r.src, PastHead(r, k).cursor)
    ensures !k.close && k.test.Compare? ==> !PastHead(r, k).cursor.token.RPAR?
    ensures r.cursor.token == if k.open then LPAR else ID
    ensures PastCond(r, k).cursor == CondEnd(r.src, r.cursor, k).value
    ensures PastCond(r, k).depth == DepthAfter(k, r.depth)
    ensures PastCond(r, k).out == r.out + CondPieces(TranslateCond(k, r.lookup, r.n, r.act))
  {
    hide NextOk, NextCursor, TestPieces, TestVars, HostsFor, SaidEnd;
    var first := OpenPieces(k.open) + TestPieces(TranslateCond(k, r.lookup, r.n, r.act));
    assert (r.out + first) + ClosePieces(k.close) == r.out + (first + ClosePieces(k.close));
  }

  /** What comes behind the head of a condition. */
  lemma HeadAhead(r: Reader, k: Cond<Operand>)
    requires Readable(r, k)
    ensures var h := PastHead(r, k);
            && (k.close ==> h.depth > 0 && h.cursor.token.RPAR? && NextOk(r.src, h.cursor))
            && (k.test.Compare? && !k.close ==> !h.cursor.token.RPAR?)
            && PastCond(r, k) == (if k.test.Member? then h else PastTail(h, k.close))
  {
    hide Readable, PastHead, NextOk;
    ReadableParts(r, k);
    PastTailNone(PastHead(r, k));
  }

  lemma HeadStart(r: Reader, k: Cond<Operand>)
    requires Readable(r, k)
    ensures OpenEnd(r.src, r.cursor, k.open).Some?
    ensures TestEnd(r.src, OpenEnd(r.src, r.cursor, k.open).value, k).Some?
    ensures r.cursor.token == if k.open then LPAR else ID
  {
    hide NextOk, NextCursor, TestVars, SaidEnd, CloseEnd, Room;
  }

  lemma HeadParts(r: Reader, k: Cond<Operand>)
    requires Readable(r, k)
    ensures r.cursor.token == if k.open then LPAR else ID
    ensures OpenEnd(r.src, r.cursor, k.open).Some?
    ensures TestEnd(r.src, OpenEnd(r.src, r.cursor, k.open).value, k) == Some(PastHead(r, k).cursor)
    ensures PastHead(r, k).out == (r.out + OpenPieces(k.open)) + TestPieces(TranslateCond(k, r.lookup, r.n, r.act))
    ensures PastHead(r, k) == r.(cursor := PastHead(r, k).cursor, out := PastHead(r, k).out,
                                 hosts := r.hosts + HostsFor(TestVars(k.test), r.lookup, r.n, r.act),
                                 n := r.n + |TestVars(k.test)|, depth := r.depth + if k.open then 1 else 0)
  {
    hide NextOk, NextCursor, TestPieces, TestVars, HostsFor, TestEnd;
    HeadStart(r, k);
    Assoc(r.out, OpenPieces(k.open), TestPieces(TranslateCond(k, r.lookup, r.n, r.act)));
  }

  lemma PastCondActs(r: Reader, k: Cond<Operand>)
    ensures PastCond(r, k).acts == r.acts
  {
    hide HostsFor, TestVars, HeadEnd, TestPieces, OpenPieces, ClosePieces;
  }

  /** Behind a comparison and its ')', where b reads, the chain goes on past AND or OR,
      and else is done. */
  predicate Tailed(b: Reader, ok: bool, done: bool, r: Reader) {
    && (Stops(b.cursor.token) ==> ok && done && r.(depth := b.depth) == b)
    && (Conjunction(b.cursor.token) && NextOk(r.src, b.cursor) ==> ok && !done && r == PastJoin(b))
  }

  /** What an iteration comes to that begins with reader a at condition k; behind a list
      the loop goes on whatever follows, and nothing more is read. */
  predicate Stepped(
    k: Cond<Operand>, wasnull: bool, a: Reader, ok: bool, done: bool, isnull: bool, r: Reader)
  {
    var b := PastCond(a, k);
    if !CondPasses(a, k, wasnull) then !ok
    else
      && isnull == SeenAfter(k.test, wasnull)
      && (k.test.Member? ==> ok && !done && r == b)
      && (k.test.Compare? ==> Tailed(b, ok, done, r))
  }

  /** Where a reader is to arrive. */
  datatype Goal = Goal(end: Cursor, out: seq<Piece>, next: nat, hosts: seq<Host>)

  /** Reading up to `end`, these pieces and the placeholders of these variables take
      the reader to the goal. */
  predicate Aims(r: Reader, end: Option<Cursor>, pieces: seq<Piece>, vs: seq<string>, goal: Goal) {
    && end == Some(goal.end)
    && r.out + pieces == goal.out
    && r.hosts + HostsFor(vs, r.lookup, r.n, r.act) == goal.hosts
    && r.n + |vs| == goal.next
  }

  function GoalOf(r: Reader, end: Cursor, pieces: seq<Piece>, vs: seq<string>): Goal {
    Goal(end, r.out + pieces, r.n + |vs|, r.hosts + HostsFor(vs, r.lookup, r.n, r.act))
  }

  /** The first part leaves the rest to be done. */
  lemma AimsOn(
    r: Reader, t: Reader, end: Option<Cursor>, a: seq<Piece>, b: seq<Piece>, va: seq<string>, vb: seq<string>,
      goal: Goal)
    requires Aims(r, end, a + b, va + vb, goal) && t == Further(r, t.cursor, a, va)
    ensures Aims(t, end, b, vb, goal)
  {
    hide HostsFor;
    HostsForConcat(va, vb, r.lookup, r.n, r.act);
    Assoc(r.out, a, b);
    Assoc(r.hosts, HostsFor(va, r.lookup, r.n, r.act), HostsFor(vb, r.lookup, r.n + |va|, r.act));
  }

  lemma AimsEnd(r: Reader, end: Option<Cursor>, pieces: seq<Piece>, vs: seq<string>, goal: Goal)
    requires Aims(r, end, pieces, vs, goal)
    ensures end == Some(goal.end)
  {
  }

  lemma AimsNone(r: Reader, goal: Goal)
    requires Aims(r, Some(r.cursor), [], [], goal)
    ensures r.cursor == goal.end && r.out == goal.out && r.n == goal.next && r.hosts == goal.hosts
  {
    hide Room;
    assert HostsFor([], r.lookup, r.n, r.act) == [];
  }

  /** The source still spells the rest of the chain, its placeholders fit, and
      translating it takes the reader to the goal. */
  predicate Underway(r: Reader, rest: Chain<Operand>, goal: Goal) {
    && ChainEnd(r.src, r.cursor, rest, r.depth) == Some(goal.end)
    && r.out + ChainPieces(Translate(rest, r.lookup, r.n, r.act)) == goal.out
    && r.hosts + HostsFor(ChainVars(rest), r.lookup, r.n, r.act) == goal.hosts
    && r.n + |ChainVars(rest)| == goal.next
  }

  /** The first condition of the rest can be read. */
  lemma UnderwayHead(r: Reader, rest: Chain<Operand>, goal: Goal)
    requires Underway(r, rest, goal)
    ensures Readable(r, rest.cond)
  {
    hide HostsFor, CondEnd, ChainPieces, Translate;
  }

  /** Reading the last condition reaches the goal. */
  lemma UnderwayLast(r: Reader, rest: Chain<Operand>, goal: Goal)
    requires Underway(r, rest, goal) && rest.Last?
    ensures var b := PastCond(r, rest.cond);
            b.cursor == goal.end && b.out == goal.out && b.n == goal.next && b.hosts == goal.hosts
              && Ends(rest.cond.test, b.cursor.token)
  {
    UnderwayHead(r, rest, goal);
    ReadableParts(r, rest.cond);
    hide Room, HostsFor, CondEnd, HeadEnd, CondPieces, TranslateCond, TestPieces, Readable;
    assert ChainVars(rest) == TestVars(rest.cond.test);
  }

  /** Reading another one and what links it to the next leaves the reader on its way
      through what follows. */
  lemma UnderwayNext(r: Reader, rest: Chain<Operand>, goal: Goal)
    requires Underway(r, rest, goal) && rest.Join?
    ensures var b := PastCond(r, rest.cond);
            && (rest.link.Conj? <==> rest.cond.test.Compare?)
            && (rest.link.Conj? ==> Conjunction(b.cursor.token) && NextOk(r.src, b.cursor))
            && Underway(PastLink(b, rest.link), rest.rest, goal)
  {
    hide Room, HostsFor, ChainEnd, CondEnd, HeadEnd, NextOk, NextCursor, CondPieces, TestPieces, Readable, DepthAfter;
    hide TranslateCond, Translate, ChainPieces, ChainVars, TestVars, OpenPieces, ClosePieces, PastTail, Conjunction;
    hide LinkEnd;
    UnderwayHead(r, rest, goal);
    ReadableParts(r, rest.cond);
    ChainNext(r.src, r.cursor, rest, r.depth);
    PastCondHosts(r, rest.cond);
    ChainVarsSplit(r, rest);
    ChainPiecesSplit(r, rest);
  }

  lemma PastCondHosts(r: Reader, k: Cond<Operand>)
    ensures var b := PastCond(r, k);
            && b == r.(cursor := b.cursor, out := b.out, depth := b.depth,
                       hosts := r.hosts + HostsFor(TestVars(k.test), r.lookup, r.n, r.act),
                       n := r.n + |TestVars(k.test)|)
  {
    hide HostsFor, TestVars, HeadEnd, TestPieces, OpenPieces, ClosePieces;
  }

  /** What follows the first condition of a chain that goes on. */
  lemma ChainNext(src: string, c: Cursor, ch: Chain<Operand>, depth: nat)
    requires ChainEnd(src, c, ch, depth).Some? && ch.Join?
    ensures CondEnd(src, c, ch.cond).Some? && DepthAfter(ch.cond, depth) >= 0
    ensures var e := CondEnd(src, c, ch.cond).value;
            && (ch.link.Conj? <==> ch.cond.test.Compare?)
            && (ch.link.Conj? ==> Conjunction(e.token) && NextOk(src, e) && e.text == ch.link.text)
            && ChainEnd(src, if ch.link.Conj? then NextCursor(src, e) else e, ch.rest, DepthAfter(ch.cond, depth))
                 == ChainEnd(src, c, ch, depth)
  {
    hide CondEnd, NextCursor, NextOk, DepthAfter;
  }

  lemma VarsSplit(ch: Chain<Operand>)
    requires ch.Join?
    ensures ChainVars(ch) == TestVars(ch.cond.test) + ChainVars(ch.rest)
  {
  }

  lemma ChainVarsSplit(r: Reader, rest: Chain<Operand>)
    requires rest.Join?
    ensures var vs, more := TestVars(rest.cond.test), ChainVars(rest.rest);
            var hosts := r.hosts + HostsFor(vs, r.lookup, r.n, r.act);
            && |ChainVars(rest)| == |vs| + |more|
            && hosts + HostsFor(more, r.lookup, r.n + |vs|, r.act)
                 == r.hosts + HostsFor(ChainVars(rest), r.lookup, r.n, r.act)
            && (Room(ChainVars(rest), r.lookup, r.hosts) <==>
                  Room(vs, r.lookup, r.hosts) && Room(more, r.lookup, hosts))
  {
    hide Room, HostsFor, TestVars, ChainVars;
    var vs, more := TestVars(rest.cond.test), ChainVars(rest.rest);
    VarsSplit(rest);
    RoomSplit(vs, more, r.lookup, r.hosts, r.n, r.act);
    HostsForConcat(vs, more, r.lookup, r.n, r.act);
    Assoc(r.hosts, HostsFor(vs, r.lookup, r.n, r.act), HostsFor(more, r.lookup, r.n + |vs|, r.act));
  }

  /** The chain is accepted from here: by the rule of chains, and because its variables
      find room. */
  predicate Passes(r: Reader, ch: Chain<Operand>, seen: bool) {
    ChainRule(ch, seen, r.depth) && Room(ChainVars(ch), r.lookup, r.hosts)
  }

  /** The first condition is accepted. */
  predicate CondPasses(r: Reader, k: Cond<Operand>, seen: bool) {
    TestRule(k.test, seen) && Room(TestVars(k.test), r.lookup, r.hosts)
  }

  /** A chain is accepted when its first condition is and, from behind it, what follows. */
  lemma PassesNext(r: Reader, ch: Chain<Operand>, seen: bool)
    requires DepthAfter(ch.cond, r.depth) >= 0
    ensures var b, s := PastCond(r, ch.cond), SeenAfter(ch.cond.test, seen);
            && (ch.Join? ==> (Passes(r, ch, seen) <==>
                  CondPasses(r, ch.cond, seen) && Passes(PastLink(b, ch.link), ch.rest, s)))
            && (ch.Last? ==> (Passes(r, ch, seen) <==>
                  CondPasses(r, ch.cond, seen) && (ch.cond.test.Member? ==> b.depth == 0)))
  {
    hide Room, HostsFor, TestVars, TestRule, SeenAfter, HeadEnd, TestPieces, OpenPieces, ClosePieces;
    PastCondHosts(r, ch.cond);
    if ch.Join? {
      ChainVarsSplit(r, ch);
    } else {
      assert ChainVars(ch) == TestVars(ch.cond.test);
    }
  }

  lemma ChainPiecesSplit(r: Reader, rest: Chain<Operand>)
    requires rest.Join?
    ensures var n := r.n + |TestVars(rest.cond.test)|;
            var first := CondPieces(TranslateCond(rest.cond, r.lookup, r.n, r.act));
            ((r.out + first) + LinkPieces(rest.link)) + ChainPieces(Translate(rest.rest, r.lookup, n, r.act))
              == r.out + ChainPieces(Translate(rest, r.lookup, r.n, r.act))
  {
    hide CondPieces, TranslateCond, TestVars, LinkPieces;
    var first := CondPieces(TranslateCond(rest.cond, r.lookup, r.n, r.act));
    var join := LinkPieces(rest.link);
    var after := ChainPieces(Translate(rest.rest, r.lookup, r.n + |TestVars(rest.cond.test)|, r.act));
    Assoc(r.out, first, join);
    Assoc(r.out, first + join, after);
  }

  // ---------------------------------------------------------------- what both mean

  /** A reading of names, literals, comparisons and lists. */
  datatype Semantics<!V> = Semantics(
    column: Name -> V, literal: (bool, string) -> V, none: V, compare: (Token, bool, V, V) -> bool,
    member: (bool, V, seq<Value>) -> bool)

  /** Inside one parenthesis: the OR of the finished AND groups, and the AND of the
      group under way. */
  datatype Group = Group(any: bool, all: bool)

  function Met(gs: seq<Group>, b: bool): seq<Group> {
    if gs == [] then [] else gs[..|gs| - 1] + [gs[|gs| - 1].(all := gs[|gs| - 1].all && b)]
  }

  function Opened(gs: seq<Group>, open: bool): seq<Group> {
    if open then gs + [Group(false, true)] else gs
  }

  /** A ')' makes its group one operand of the group around it. */
  function Closed(gs: seq<Group>, close: bool): seq<Group> {
    if !close || gs == [] then gs
    else
      var g := gs[|gs| - 1];
      Met(gs[..|gs| - 1], g.any || g.all)
  }

  function Joined(gs: seq<Group>, conj: bool): seq<Group> {
    if conj || gs == [] then gs
    else
      var g := gs[|gs| - 1];
      gs[..|gs| - 1] + [Group(g.any || g.all, true)]
  }

  predicate EvalTest<V, O>(column: Name, test: Test<O>, sem: Semantics<V>, value: O -> V) {
    match test
    case Compare(op, negated, operand) => sem.compare(op, negated, sem.column(column), value(operand))
    case Member(negated, list) => sem.member(negated, sem.column(column), list)
  }

  function EvalCond<V, O>(k: Cond<O>, sem: Semantics<V>, value: O -> V, gs: seq<Group>): seq<Group> {
    Closed(Met(Opened(gs, k.open), EvalTest(k.column, k.test, sem, value)), k.close)
  }

  /** AND binds tighter than OR; a chain whose parentheses do not match has no value, nor
      has one with conditions that nothing links. */
  function Eval<V, O>(ch: Chain<O>, sem: Semantics<V>, value: O -> V, gs: seq<Group>): Option<bool> {
    var after := EvalCond(ch.cond, sem, value, gs);
    match ch
    case Last(_) => if |after| == 1 then Some(after[0].any || after[0].all) else None
    case Join(_, Conj(conj, _), rest) => Eval(rest, sem, value, Joined(after, conj))
    case Join(_, Bare, _) => None
  }

  /** A chain read from the beginning. */
  function Holds<V, O>(ch: Chain<O>, sem: Semantics<V>, value: O -> V): Option<bool> {
    Eval(ch, sem, value, [Group(false, true)])
  }

  function SourceValue<V>(sem: Semantics<V>, env: string -> V, o: Operand): V {
    match o
    case Variable(v) => env(v)
    case Literal(quoted, text) => sem.literal(quoted, text)
    case Column(n) => sem.column(n)
    case Null => sem.none
  }

  function TargetValue<V>(sem: Semantics<V>, env: string -> V, bind: nat -> V, t: Target): V {
    match t
    case Placeholder(h) => bind(h.index)
    case Same(o) => SourceValue(sem, env, o)
  }

  /** The host variables hold the values of the variables they replace. */
  predicate Binds<V(==)>(vs: seq<string>, n: nat, env: string -> V, bind: nat -> V) {
    forall k :: 0 <= k < |vs| ==> bind(n + k) == env(vs[k])
  }

  /** A chain and its translation mean the same under matching bindings. */
  lemma {:induction false} TranslationKeepsMeaning<V>(
    ch: Chain<Operand>, lookup: map<string, nat>, n: nat, act: nat,
    sem: Semantics<V>, env: string -> V, bind: nat -> V, gs: seq<Group>)
    requires Binds(ChainVars(ch), n, env, bind)
    ensures Eval(Translate(ch, lookup, n, act), sem, (t: Target) => TargetValue(sem, env, bind, t), gs)
         == Eval(ch, sem, (o: Operand) => SourceValue(sem, env, o), gs)
  {
    hide Closed, Joined, Met, Opened;
    var vs := TestVars(ch.cond.test);
    if vs != [] {
      assert ChainVars(ch)[0] == vs[0];
      assert bind(n + 0) == env(vs[0]);
    }
    if ch.Join? && ch.link.Conj? {
      var after := EvalCond(ch.cond, sem, (o: Operand) => SourceValue(sem, env, o), gs);
      BindsRest(vs, ChainVars(ch.rest), n, env, bind);
      TranslationKeepsMeaning(ch.rest, lookup, n + |vs|, act, sem, env, bind, Joined(after, ch.link.conj));
    }
  }

  lemma BindsRest<V>(a: seq<string>, b: seq<string>, n: nat, env: string -> V, bind: nat -> V)
    requires Binds(a + b, n, env, bind)
    ensures Binds(b, n + |a|, env, bind)
  {
    forall k | 0 <= k < |b|
      ensures bind(n + |a| + k) == env(b[k])
    {
      assert (a + b)[|a| + k] == b[k];
      assert bind(n + (|a| + k)) == env((a + b)[|a| + k]);
    }
  }
}
