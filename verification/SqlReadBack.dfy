/**
  What is written for a condition chain can be read in one way only: the pieces
  determine the chain.
 */
module SqlReadBack {

  import opened Common
  import opened SqlLex
  import opened SqlOutput
  import opened SqlChain
  import opened SqlStatement
  import opened SqlSites
  import opened SqlSpelling

  // ---------------------------------------------------------------- what can be written

  /** The texts of names. */
  predicate Identifier(s: string) {
    && s != "" && s != "=" && s[0] != ' ' && s[0] != '-' && !IsDigit(s[0])
    && forall i :: 0 < i < |s| ==> IsWord(s[i])
  }

  /** The texts of numbers. */
  predicate Numeral(s: string) {
    s != "" && (s[0] == '-' || IsDigit(s[0])) && forall i :: 0 < i < |s| ==> IsDigit(s[i])
  }

  function FirstOf(n: Name): string {
    n.qualifier.GetOr(n.name)
  }

  predicate ProperTarget(t: Target) {
    match t
    case Placeholder(_) => true
    case Same(Variable(_)) => false
    case Same(Literal(quoted, text)) => quoted || Numeral(text)
    case Same(Column(n)) => Identifier(FirstOf(n))
    case Same(Null) => true
  }

  /** The texts of variables. */
  predicate AtName(s: string) {
    s != "" && s[0] == '@'
  }

  predicate ProperValue(v: Value) {
    match v
    case Number(text) => Numeral(text)
    case Quote(_) => true
    case Var(name) => AtName(name)
    case Ident(text) => Identifier(text)
  }

  predicate ProperValues(vs: seq<Value>) {
    forall k :: 0 <= k < |vs| ==> ProperValue(vs[k])
  }

  predicate ProperTest(t: Test<Target>) {
    match t
    case Compare(op, _, operand) => Operator(op) && ProperTarget(operand)
    case Member(_, list) => ProperValues(list)
  }

  /** Only a comparison has a ')' behind it. */
  predicate ProperCond(k: Cond<Target>) {
    Identifier(FirstOf(k.column)) && ProperTest(k.test) && (k.close ==> k.test.Compare?)
  }

  /** AND or OR stands behind a comparison, nothing behind a list. */
  predicate ProperLink(k: Cond<Target>, link: Link) {
    match link
    case Conj(conj, text) => k.test.Compare? && Upper(text) == if conj then "AND" else "OR"
    case Bare => k.test.Member?
  }

  predicate Proper(ch: Chain<Target>) {
    && ProperCond(ch.cond)
    && (ch.Join? ==> ProperLink(ch.cond, ch.link) && Proper(ch.rest))
  }

  // ---------------------------------------------------------------- what is written is proper

  /** The text of a token in hand is one the tokenizer gives it. */
  predicate Lexed(c: Cursor) {
    && (c.token.ID? || c.token.FUNC? ==> Identifier(c.text)) && (c.token.NUM? ==> Numeral(c.text))
    && (c.token.VAR? ==> AtName(c.text)) && (Spelling(c.token) != "" ==> Upper(c.text) == Spelling(c.token))
  }

  lemma NextLexed(src: string, c: Cursor)
    requires NextOk(src, c)
    ensures Lexed(NextCursor(src, c))
  {
    hide Identifier, Numeral, TokenSpelled, Lex, Spelling, Upper;
    var start := LexSpelled(src, c.pos, c.text);
    var r := Lex(src, c.pos, c.text);
    if start < |src| {
      NameTokens();
      if Digit(src[start]) || src[start] == '-' {
        NumberLexed(src, start, r);
      } else {
        WordLexed(src, start, r);
      }
    } else {
      NameTokens();
    }
  }

  lemma NameTokens()
    ensures Spelling(EOS) == Spelling(NUM) == Spelling(STRLIT) == Spelling(ID) == Spelling(VAR) == Spelling(FUNC) == ""
  {
  }

  lemma NumberLexed(src: string, start: nat, r: Reading)
    requires start < |src| && (Digit(src[start]) || src[start] == '-') && TokenSpelled(src, start, r)
    ensures r.token.NUM? && Numeral(r.text)
  {
    hide Spelling;
  }

  lemma WordLexed(src: string, start: nat, r: Reading)
    requires start < |src| && !Blank(src[start]) && !Digit(src[start]) && src[start] != '-'
    requires TokenSpelled(src, start, r)
    ensures Lexed(Cursor(r.token, r.text, r.pos))
  {
    hide Spelling, Upper, Capitals;
    NameTokens();
    CapitalsUpper(r.text, Spelling(r.token));
    if SignToken(src, start).Some? {
      SignsUnspelled(src, start);
    }
  }

  lemma SignsUnspelled(src: string, start: nat)
    requires start < |src| && SignToken(src, start).Some?
    ensures var t := SignToken(src, start).value; Spelling(t) == "" && !t.ID? && !t.FUNC? && !t.NUM? && !t.VAR?
  {
  }

  lemma TakeLexed(src: string, c: Cursor, t: Token)
    requires Take(src, c, t).Some?
    ensures Lexed(Take(src, c, t).value)
  {
    hide NextOk, NextCursor, Lexed;
    NextLexed(src, c);
  }

  lemma NameProper(src: string, c: Cursor, n: Name)
    requires NameEnd(src, c, n).Some? && Lexed(c)
    ensures Identifier(FirstOf(n)) && Lexed(NameEnd(src, c, n).value)
  {
    hide NextOk, NextCursor, Identifier, Numeral;
    assert FieldPieces(src, c)[0] == NamePieces(n)[0];
    NextLexed(src, c);
    var dot := NextCursor(src, c);
    if dot.token.DOT? {
      NextLexed(src, dot);
      NextLexed(src, NextCursor(src, dot));
    }
  }

  lemma OperandProper(src: string, c: Cursor, o: Operand, lookup: map<string, nat>, n: nat, act: nat)
    requires OperandEnd(src, c, o).Some? && Lexed(c)
    ensures ProperTarget(TranslateOperand(o, lookup, n, act)) && Lexed(OperandEnd(src, c, o).value)
  {
    hide NextOk, NextCursor, Identifier, Numeral;
    match o
    case Column(name) => NameProper(src, c, name);
    case _ => NextLexed(src, c);
  }

  lemma ValueProper(src: string, c: Cursor, v: Value)
    requires ValueEnd(src, c, v).Some? && Lexed(c)
    ensures ProperValue(v) && Lexed(ValueEnd(src, c, v).value)
  {
    hide NextOk, NextCursor, Identifier, Numeral;
    NextLexed(src, c);
  }

  lemma {:induction false} LitsProper(src: string, c: Cursor, vs: seq<Value>)
    requires LitsEnd(src, c, vs).Some? && Lexed(c)
    ensures ProperValues(vs) && Lexed(LitsEnd(src, c, vs).value)
    decreases |vs|
  {
    hide NextOk, NextCursor, Lexed, ValueEnd, ProperValue;
    if vs != [] {
      var e := ValueEnd(src, c, vs[0]).value;
      ValueProper(src, c, vs[0]);
      if |vs| > 1 {
        TakeLexed(src, e, COMMA);
        LitsProper(src, Take(src, e, COMMA).value, vs[1..]);
        assert vs == [vs[0]] + vs[1..];
      }
    }
  }

  lemma ListProper(src: string, c: Cursor, vs: seq<Value>)
    requires ListEnd(src, c, vs).Some?
    ensures ProperValues(vs) && Lexed(ListEnd(src, c, vs).value)
  {
    hide NextOk, NextCursor, Lexed, ProperValues, LitsEnd;
    var e := Take(src, c, IN).value;
    TakeLexed(src, e, LPAR);
    var r := Take(src, e, LPAR).value;
    LitsProper(src, r, vs);
    TakeLexed(src, LitsEnd(src, r, vs).value, RPAR);
  }

  lemma SaidProper(src: string, c: Cursor, test: Test<Operand>, lookup: map<string, nat>, n: nat, act: nat)
    requires SaidEnd(src, c, test).Some? && Lexed(c)
    ensures ProperTest(TranslateTest(test, lookup, n, act)) && Lexed(SaidEnd(src, c, test).value)
  {
    hide NextOk, NextCursor, Lexed, ProperValues, ListEnd, OperandEnd, ProperTarget, TranslateOperand;
    match test
    case Compare(op, negated, operand) =>
      CompareParts(src, c, op, negated, operand);
      var next := NextCursor(src, c);
      NextLexed(src, c);
      if negated {
        TakeLexed(src, next, NOT);
      }
      OperandProper(src, NotEnd(src, next, negated).value, operand, lookup, n, act);
    case Member(negated, list) =>
      if negated {
        TakeLexed(src, c, NOT);
      }
      ListProper(src, NotEnd(src, c, negated).value, list);
  }

  lemma CondProper(src: string, c: Cursor, k: Cond<Operand>, lookup: map<string, nat>, n: nat, act: nat)
    requires CondEnd(src, c, k).Some? && Lexed(c)
    ensures ProperCond(TranslateCond(k, lookup, n, act)) && Lexed(CondEnd(src, c, k).value)
  {
    hide NextOk, NextCursor, Lexed, SaidEnd, NameEnd, ProperTest, TranslateOperand;
    if k.open {
      TakeLexed(src, c, LPAR);
    }
    var start := OpenEnd(src, c, k.open).value;
    NameProper(src, start, k.column);
    var e := NameEnd(src, start, k.column).value;
    SaidProper(src, e, k.test, lookup, n, act);
    if k.close {
      TakeLexed(src, SaidEnd(src, e, k.test).value, RPAR);
    }
  }

  /** The translation of a spelled chain is proper. */
  lemma {:induction false} ChainProper(
    src: string, c: Cursor, ch: Chain<Operand>, depth: nat, lookup: map<string, nat>, n: nat, act: nat)
    requires ChainEnd(src, c, ch, depth).Some? && Lexed(c)
    ensures Proper(Translate(ch, lookup, n, act))
    decreases ch
  {
    hide NextOk, NextCursor, CondEnd, ProperCond, TestVars, TranslateOperand;
    CondProper(src, c, ch.cond, lookup, n, act);
    if ch.Join? {
      var e := CondEnd(src, c, ch.cond).value;
      var next := LinkEnd(src, e, ch.cond.test, ch.link).value;
      if ch.link.Conj? {
        TakeLexed(src, e, if ch.link.conj then AND else OR);
      }
      ChainProper(src, next, ch.rest, DepthAfter(ch.cond, depth), lookup, n + |TestVars(ch.cond.test)|, act);
    }
  }

  // ---------------------------------------------------------------- the pieces determine the chain

  /** Beginnings of one length are the same, and so are the rests. */
  lemma Cancel<T>(a: seq<T>, b: seq<T>, x: seq<T>, y: seq<T>)
    requires a + x == b + y && |a| == |b|
    ensures a == b && x == y
  {
    assert (a + x)[..|a|] == a && (b + y)[..|b|] == b;
    assert (a + x)[|a|..] == x && (b + y)[|b|..] == y;
  }

  /** No name ends here with its qualifier only. */
  predicate Undotted(x: seq<Piece>) {
    x != [] && x[0] != Word(".")
  }

  lemma NameDetermined(m: Name, n: Name, x: seq<Piece>, y: seq<Piece>)
    requires NamePieces(m) + x == NamePieces(n) + y && Undotted(x) && Undotted(y)
    ensures m == n && x == y
  {
    var ps := NamePieces(m) + x;
    assert ps[1] == if m.qualifier.Some? then Word(".") else x[0];
    assert ps[1] == if n.qualifier.Some? then Word(".") else y[0];
    Cancel(NamePieces(m), NamePieces(n), x, y);
  }

  /** The first piece of an operand tells its kind, and is no NOT. */
  lemma TargetStarts(t: Target, tick: bool)
    requires ProperTarget(t)
    ensures TargetPieces(t, tick) != [] && TargetPieces(t, tick)[0] != Word("NOT ")
    ensures var p := TargetPieces(t, tick)[0];
            match t
            case Placeholder(h) => p == Bound(h)
            case Same(Literal(quoted, text)) =>
              if quoted then p == Quoted(text, tick) else p == Word(text) && Numeral(text)
            case Same(Column(n)) => p == Word(FirstOf(n)) && Identifier(FirstOf(n))
            case Same(_) => p == Word(" NULL ")
  {
    assert !IsDigit("NOT "[0]) && !IsWord("NOT "[3]);
  }

  lemma TargetDetermined(a: Target, b: Target, tick: bool, x: seq<Piece>, y: seq<Piece>)
    requires ProperTarget(a) && ProperTarget(b) && Undotted(x) && Undotted(y)
    requires TargetPieces(a, tick) + x == TargetPieces(b, tick) + y
    ensures a == b && x == y
  {
    hide Identifier, Numeral;
    TargetStarts(a, tick);
    TargetStarts(b, tick);
    var p := TargetPieces(a, tick)[0];
    assert p == (TargetPieces(a, tick) + x)[0] == TargetPieces(b, tick)[0];
    TextKinds();
    if a.Same? && a.operand.Column? {
      NameDetermined(a.operand.column, b.operand.column, x, y);
    } else {
      Cancel(TargetPieces(a, tick), TargetPieces(b, tick), x, y);
    }
  }

  /** A name, a number and NULL are told apart. */
  lemma TextKinds()
    ensures forall s :: !(Identifier(s) && Numeral(s))
    ensures !Identifier(" NULL ") && !Numeral(" NULL ")
  {
  }

  lemma OperatorsDiffer(s: Token, t: Token)
    requires Operator(s) && Operator(t) && OperatorText(s) == OperatorText(t)
    ensures s == t
  {
  }

  lemma OperatorDetermined(s: Token, t: Token, p: bool, q: bool, x: seq<Piece>, y: seq<Piece>)
    requires Operator(s) && Operator(t) && OperatorPieces(s, p) + x == OperatorPieces(t, q) + y
    requires x != [] && x[0] != Word("NOT ") && y != [] && y[0] != Word("NOT ")
    ensures s == t && p == q && x == y
  {
    hide Operator, OperatorText;
    OperatorKinds(s);
    OperatorKinds(t);
    var ps := OperatorPieces(s, p) + x;
    assert ps[0] == Word(OperatorText(s).value) == Word(OperatorText(t).value);
    OperatorsDiffer(s, t);
    assert ps[1] == if p then Word("NOT ") else x[0];
    assert ps[1] == if q then Word("NOT ") else y[0];
    Cancel(OperatorPieces(s, p), OperatorPieces(t, q), x, y);
  }

  lemma TerminatorUndotted(inlike: bool, x: seq<Piece>)
    ensures Undotted(TerminatorPieces(inlike) + x)
  {
  }

  lemma CompareDetermined(
    s: Token, t: Token, p: bool, q: bool, a: Target, b: Target, x: seq<Piece>, y: seq<Piece>)
    requires Operator(s) && Operator(t) && ProperTarget(a) && ProperTarget(b)
    requires ComparePieces(s, p, a) + x == ComparePieces(t, q, b) + y
    ensures s == t && p == q && a == b && x == y
  {
    hide Operator, ProperTarget, TargetPieces, TerminatorPieces, OperatorPieces, Undotted;
    var u, v := TerminatorPieces(s.LIKE?) + x, TerminatorPieces(t.LIKE?) + y;
    var c, d := TargetPieces(a, s.LIKE?) + u, TargetPieces(b, t.LIKE?) + v;
    CompareSplit(s, p, a, x);
    CompareSplit(t, q, b, y);
    TargetStarts(a, s.LIKE?);
    TargetStarts(b, t.LIKE?);
    OperatorDetermined(s, t, p, q, c, d);
    TerminatorUndotted(s.LIKE?, x);
    TerminatorUndotted(t.LIKE?, y);
    TargetDetermined(a, b, s.LIKE?, u, v);
    Cancel(TerminatorPieces(s.LIKE?), TerminatorPieces(t.LIKE?), x, y);
  }

  lemma CompareSplit(s: Token, p: bool, a: Target, x: seq<Piece>)
    ensures ComparePieces(s, p, a) + x
         == OperatorPieces(s, p) + (TargetPieces(a, s.LIKE?) + (TerminatorPieces(s.LIKE?) + x))
  {
    hide OperatorPieces, TargetPieces, TerminatorPieces;
  }

  lemma ValueDetermined(v: Value, w: Value)
    requires ProperValue(v) && ProperValue(w) && ValuePiece(v) == ValuePiece(w)
    ensures v == w
  {
    hide Identifier, Numeral;
    TextKinds();
    if v.Var? {
      assert v.name == "@" + VarName(v.name) && w.name == "@" + VarName(w.name);
    }
  }

  /** The values of a list, up to its ')'. */
  lemma {:induction false} ValuesDetermined(vs: seq<Value>, ws: seq<Value>, x: seq<Piece>, y: seq<Piece>)
    requires ProperValues(vs) && ProperValues(ws)
    requires ValuesPieces(vs) + [Close] + x == ValuesPieces(ws) + [Close] + y
    ensures vs == ws && x == y
    decreases |vs|
  {
    var ps := ValuesPieces(vs) + [Close] + x;
    ValuesStart(vs, x);
    ValuesStart(ws, y);
    if vs == [] || ws == [] {
      Cancel(ValuesPieces(vs) + [Close], ValuesPieces(ws) + [Close], x, y);
    } else {
      ValueDetermined(vs[0], ws[0]);
      if |vs| == 1 || |ws| == 1 {
        Cancel(ValuesPieces(vs) + [Close], ValuesPieces(ws) + [Close], x, y);
        assert vs == [vs[0]] && ws == [ws[0]];
      } else {
        var head := [ValuePiece(vs[0]), Word(",")];
        Cancel(head, head, ValuesPieces(vs[1..]) + [Close] + x, ValuesPieces(ws[1..]) + [Close] + y);
        ValuesDetermined(vs[1..], ws[1..], x, y);
        assert vs == [vs[0]] + vs[1..] && ws == [ws[0]] + ws[1..];
      }
    }
  }

  /** A ')' stands first or second exactly when the list has no or one value. */
  lemma ValuesStart(vs: seq<Value>, x: seq<Piece>)
    requires ProperValues(vs)
    ensures var ps := ValuesPieces(vs) + [Close] + x;
            && (ps[0].Close? <==> vs == [])
            && (vs != [] ==> ps[0] == ValuePiece(vs[0]) && |ps| > 1 && (ps[1].Close? <==> |vs| == 1))
            && (|vs| > 1 ==> ps == [ValuePiece(vs[0]), Word(",")] + (ValuesPieces(vs[1..]) + [Close] + x))
  {
    var ps := ValuesPieces(vs) + [Close] + x;
    if |vs| > 1 {
      ManyStart(vs, x);
    } else if |vs| == 1 {
      assert ValuesPieces(vs) == [ValuePiece(vs[0])];
      assert ps == [ValuePiece(vs[0]), Close] + x;
    } else {
      assert ps == [Close] + x;
    }
  }

  lemma ManyStart(vs: seq<Value>, x: seq<Piece>)
    requires |vs| > 1 && ProperValues(vs)
    ensures var ps := ValuesPieces(vs) + [Close] + x;
            && ps == [ValuePiece(vs[0]), Word(",")] + (ValuesPieces(vs[1..]) + [Close] + x)
            && !ps[0].Close? && ps[0] == ValuePiece(vs[0]) && ps[1] == Word(",")
  {
    var head, rest := [ValuePiece(vs[0]), Word(",")], ValuesPieces(vs[1..]);
    assert ValuesPieces(vs) == head + rest;
    Assoc(head, rest, [Close]);
    Assoc(head, rest + [Close], x);
  }

  lemma MemberDetermined(p: bool, q: bool, vs: seq<Value>, ws: seq<Value>, x: seq<Piece>, y: seq<Piece>)
    requires ProperValues(vs) && ProperValues(ws) && MemberPieces(p, vs) + x == MemberPieces(q, ws) + y
    ensures p == q && vs == ws && x == y
  {
    hide ProperValues, ValuesPieces;
    MemberSplit(p, vs, x);
    MemberSplit(q, ws, y);
    var front, back := NotPieces(p, " NOT ") + [Word(" IN "), Open], NotPieces(q, " NOT ") + [Word(" IN "), Open];
    var ps := MemberPieces(p, vs) + x;
    assert ps[0] == front[0] == back[0];
    assert " NOT "[1] != " IN "[1];
    Cancel(front, back, ValuesPieces(vs) + [Close] + x, ValuesPieces(ws) + [Close] + y);
    ValuesDetermined(vs, ws, x, y);
  }

  lemma MemberSplit(p: bool, vs: seq<Value>, x: seq<Piece>)
    ensures MemberPieces(p, vs) + x
         == (NotPieces(p, " NOT ") + [Word(" IN "), Open]) + (ValuesPieces(vs) + [Close] + x)
  {
    hide ValuesPieces;
  }

  /** Whether a field is compared or looked up shows in the first piece behind it. */
  lemma SaidStarts(t: Test<Target>, x: seq<Piece>)
    requires ProperTest(t)
    ensures var ps := SaidPieces(t) + x;
            Undotted(ps) && (t.Member? <==> ps[0] == Word(" NOT ") || ps[0] == Word(" IN "))
  {
    if t.Compare? {
      OperatorWords(t.op);
    }
  }

  lemma OperatorWords(t: Token)
    requires Operator(t)
    ensures OperatorText(t).Some? && OperatorText(t).value !in {".", " NOT ", " IN "}
  {
    assert " <> "[1] == '<' && " >= "[1] == '>' && " <= "[1] == '<' && " LIKE "[1] == 'L' && " IS "[2] == 'S';
    assert " IN "[2] == 'N' && " NOT "[1] == 'N';
  }

  lemma SaidDetermined(s: Test<Target>, t: Test<Target>, x: seq<Piece>, y: seq<Piece>)
    requires ProperTest(s) && ProperTest(t) && SaidPieces(s) + x == SaidPieces(t) + y
    ensures s == t && x == y
  {
    hide Operator, ProperTarget, ProperValues, ComparePieces, MemberPieces;
    SaidStarts(s, x);
    SaidStarts(t, y);
    if s.Member? {
      MemberDetermined(s.negated, t.negated, s.list, t.list, x, y);
    } else {
      CompareDetermined(s.op, t.op, s.negated, t.negated, s.operand, t.operand, x, y);
    }
  }

  /** No ')' comes next. */
  predicate NoClose(x: seq<Piece>) {
    x != [] ==> !x[0].Close?
  }

  lemma ClosesDetermined(p: bool, q: bool, x: seq<Piece>, y: seq<Piece>)
    requires ClosePieces(p) + x == ClosePieces(q) + y && NoClose(x) && NoClose(y)
    ensures p == q && x == y
  {
    var ps := ClosePieces(p) + x;
    assert p ==> ps[0].Close?;
    assert q ==> ps[0].Close?;
    Cancel(ClosePieces(p), ClosePieces(q), x, y);
  }

  /** Beginnings that are conditions agree up to their ')'. */
  lemma TestsDetermined(k: Cond<Target>, l: Cond<Target>, x: seq<Piece>, y: seq<Piece>)
    requires ProperCond(k) && ProperCond(l) && CondPieces(k) + x == CondPieces(l) + y
    ensures k == l.(close := k.close) && ClosePieces(k.close) + x == ClosePieces(l.close) + y
  {
    hide ProperTest, SaidPieces, NamePieces, ClosePieces, Undotted, Identifier;
    var c, d := ClosePieces(k.close) + x, ClosePieces(l.close) + y;
    CondSplit(k, x);
    CondSplit(l, y);
    Cancel(OpenPieces(k.open), OpenPieces(l.open), NamePieces(k.column) + (SaidPieces(k.test) + c),
           NamePieces(l.column) + (SaidPieces(l.test) + d));
    SaidStarts(k.test, c);
    SaidStarts(l.test, d);
    NameDetermined(k.column, l.column, SaidPieces(k.test) + c, SaidPieces(l.test) + d);
    SaidDetermined(k.test, l.test, c, d);
  }

  lemma CondDetermined(k: Cond<Target>, l: Cond<Target>, x: seq<Piece>, y: seq<Piece>)
    requires ProperCond(k) && ProperCond(l) && CondPieces(k) + x == CondPieces(l) + y && NoClose(x) && NoClose(y)
    ensures k == l && x == y
  {
    hide ProperCond, CondPieces, ClosePieces, NoClose;
    TestsDetermined(k, l, x, y);
    ClosesDetermined(k.close, l.close, x, y);
  }

  lemma CondSplit(k: Cond<Target>, x: seq<Piece>)
    ensures var ps := CondPieces(k) + x;
            && ps == OpenPieces(k.open) + (NamePieces(k.column) + (SaidPieces(k.test) + (ClosePieces(k.close) + x)))
            && ps != [] && (ps[0].Open? <==> k.open) && !ps[0].Close?
  {
    hide SaidPieces, ClosePieces;
    var c := ClosePieces(k.close) + x;
    assert CondPieces(k) + x == OpenPieces(k.open) + (NamePieces(k.column) + (SaidPieces(k.test) + c));
  }

  function LinkedPieces(ch: Chain<Target>): seq<Piece> {
    if ch.Last? then [] else LinkPieces(ch.link) + ChainPieces(ch.rest)
  }

  lemma ChainSplit(ch: Chain<Target>)
    ensures ChainPieces(ch) == CondPieces(ch.cond) + LinkedPieces(ch)
    ensures ChainPieces(ch) != [] && !ChainPieces(ch)[0].Close? && NoClose(LinkedPieces(ch))
    ensures ch.Join? ==> LinkedPieces(ch) != []
  {
    hide CondPieces;
    if ch.Join? {
      Assoc(CondPieces(ch.cond), LinkPieces(ch.link), ChainPieces(ch.rest));
      ChainSplit(ch.rest);
    }
    CondSplit(ch.cond, LinkedPieces(ch));
  }

  /** Proper chains that are written alike are the same chain. */
  lemma {:induction false} ChainDetermined(a: Chain<Target>, b: Chain<Target>)
    requires Proper(a) && Proper(b) && ChainPieces(a) == ChainPieces(b)
    ensures a == b
    decreases a
  {
    hide CondPieces, ChainPieces, ProperCond;
    ChainSplit(a);
    ChainSplit(b);
    CondDetermined(a.cond, b.cond, LinkedPieces(a), LinkedPieces(b));
    if a.Join? {
      var ps := LinkedPieces(a);
      if a.link.Conj? {
        assert ps[0] == Word(a.link.text) == Word(b.link.text);
      }
      Cancel(LinkPieces(a.link), LinkPieces(b.link), ChainPieces(a.rest), ChainPieces(b.rest));
      ChainDetermined(a.rest, b.rest);
    }
  }

  // ---------------------------------------------------------------- the chains of a procedure

  function SiteChain(x: Site, lookup: map<string, nat>): Chain<Target> {
    Translate(x.chain, lookup, x.n, x.act)
  }

  predicate AllProper(xs: seq<Site>, lookup: map<string, nat>) {
    forall k :: 0 <= k < |xs| ==> Proper(SiteChain(xs[k], lookup))
  }

  lemma ProperJoin(xs: seq<Site>, ys: seq<Site>, lookup: map<string, nat>)
    requires AllProper(xs, lookup) && AllProper(ys, lookup)
    ensures AllProper(xs + ys, lookup)
  {
    hide SiteChain, Proper;
  }

  lemma {:induction false} JoinsProper(
    src: string, c: Cursor, js: seq<Joining>, lookup: map<string, nat>, n: nat, act: nat)
    requires JoinsEnd(src, c, js).Some?
    ensures AllProper(JoinSites(js, n, act), lookup)
    decreases |js|
  {
    hide NextOk, NextCursor, ChainEnd, Proper, Translate, AllProper, ChainVars;
    if js == [] {
      NoneProper(lookup);
    } else {
      JoinStarts(src, c, js[0]);
      ChainProper(src, JoinHeadEnd(src, c, js[0]).value, js[0].on, 0, lookup, n, act);
      OneProper(Site(js[0].on, n, act), lookup);
      var m := n + |ChainVars(js[0].on)|;
      JoinsProper(src, JoinEnd(src, c, js[0]).value, js[1..], lookup, m, act);
      ProperJoin([Site(js[0].on, n, act)], JoinSites(js[1..], m, act), lookup);
    }
  }

  lemma JoinStarts(src: string, c: Cursor, j: Joining)
    requires JoinHeadEnd(src, c, j).Some?
    ensures Lexed(JoinHeadEnd(src, c, j).value)
  {
    hide NextOk, NextCursor, Lexed;
    NextLexed(src, NextCursor(src, NextCursor(src, NextCursor(src, c))));
  }

  lemma NoneProper(lookup: map<string, nat>)
    ensures AllProper([], lookup)
  {
  }

  lemma OneProper(x: Site, lookup: map<string, nat>)
    requires Proper(SiteChain(x, lookup))
    ensures AllProper([x], lookup)
  {
  }

  lemma ClauseProper(
    src: string, c: Cursor, t: Token, w: Option<Chain<Operand>>, lookup: map<string, nat>, n: nat, act: nat)
    requires ClauseEnd(src, c, t, w).Some?
    ensures AllProper(ClauseSites(w, n, act), lookup)
  {
    hide NextOk, NextCursor, ChainEnd, Proper, Translate, AllProper;
    if w.None? {
      NoneProper(lookup);
    } else {
      TakeLexed(src, c, t);
      ChainProper(src, Take(src, c, t).value, w.value, 0, lookup, n, act);
      OneProper(Site(w.value, n, act), lookup);
    }
  }

  lemma BodyProper(src: string, c: Cursor, b: Body, lookup: map<string, nat>, n: nat, act: nat)
    requires BodyEnd(src, c, b).Some?
    ensures AllProper(BodySites(b, n, act), lookup)
  {
    hide NextOk, NextCursor, TablesEnd, JoinsEnd, ClauseEnd, AllProper, JoinSites, ClauseSites, JoinsVars;
    var f := Take(src, c, FROM).value;
    JoinsProper(src, TablesEnd(src, f, b.from.tables).value, b.from.joins, lookup, n, act);
    var m := n + |JoinsVars(b.from.joins)|;
    ClauseProper(src, FromEnd(src, c, b.from).value, WHERE, b.where, lookup, m, act);
    ProperJoin(JoinSites(b.from.joins, n, act), ClauseSites(b.where, m, act), lookup);
  }

  lemma SelectProper(src: string, c: Cursor, q: Query, lookup: map<string, nat>, act: nat)
    requires SelectEnd(src, c, q).Some?
    ensures AllProper(SelectSites(q, act), lookup)
  {
    hide NextOk, NextCursor, SelectHeadEnd, FieldsEnd, BodyEnd, ClauseEnd, OrderEnd, AllProper, BodySites, ClauseSites;
    hide BodyVars;
    var f := FieldsEnd(src, SelectHeadEnd(src, c, q.distinct).value, q.items).value;
    BodyProper(src, f, q.body, lookup, 0, act);
    ClauseProper(src, BodyEnd(src, f, q.body).value, HAVING, q.having, lookup, |BodyVars(q.body)|, act);
    ProperJoin(BodySites(q.body, 0, act), ClauseSites(q.having, |BodyVars(q.body)|, act), lookup);
  }

  lemma {:induction false} QueryProper(src: string, c: Cursor, q: Query, lookup: map<string, nat>, act: nat)
    requires QueryEnd(src, c, q).Some?
    ensures AllProper(QuerySites(q, act), lookup)
    decreases q
  {
    hide NextOk, NextCursor, SelectEnd, AllProper, SelectSites;
    SelectProper(src, c, q, lookup, act);
    if q.union.Some? {
      QueryProper(src, Take(src, SelectEnd(src, c, q).value, UNION).value, q.union.value, lookup, act + 1);
    } else {
      NoneProper(lookup);
    }
    ProperJoin(SelectSites(q, act), UnionSites(q.union, act), lookup);
  }

  lemma StatementProper(src: string, c: Cursor, s: Statement, lookup: map<string, nat>)
    requires StatementEnd(src, c, s).Some?
    ensures AllProper(StatementSites(s), lookup)
  {
    hide NextOk, NextCursor, QueryEnd, BodyEnd, UpdateHeadEnd, SettingsEnd, ClauseEnd, InsertEnd, AllProper;
    hide QuerySites, BodySites, ClauseSites;
    match s
    case Select(q) => QueryProper(src, c, q, lookup, 1);
    case Delete(b) => BodyProper(src, Take(src, c, DELETE).value, b, lookup, 0, 0);
    case Update(u) =>
      var e := SettingsEnd(src, UpdateHeadEnd(src, c, u.table).value, u.settings).value;
      ClauseProper(src, e, WHERE, u.where, lookup, 0, 0);
    case Insert(_) => NoneProper(lookup);
  }

  /** In a spelled procedure a chain that is written like one of the translated chains
      is that chain. */
  lemma ProcedureReadsBack(src: string, p: Procedure, lookup: map<string, nat>, k: nat, ch: Chain<Target>)
    requires SpellsProcedure(src, p) && k < |StatementSites(p.statement)| && Proper(ch)
    requires ChainPieces(ch) == SitePieces(StatementSites(p.statement)[k], lookup)
    ensures ch == SiteChain(StatementSites(p.statement)[k], lookup)
  {
    hide TitleEnd, ParamsEnd, StatementEnd, StatementSites, ChainPieces, Proper, Translate;
    var a := TitleEnd(src, INITIAL, p).value;
    StatementProper(src, ParamsEnd(src, a, p).value, p.statement, lookup);
    ChainDetermined(ch, SiteChain(StatementSites(p.statement)[k], lookup));
  }
}
