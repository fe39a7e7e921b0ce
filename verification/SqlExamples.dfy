/**
  Texts on which the translator does what nobody intends: two SELECTs that share an
  index, a parenthesis that is never closed, an IS that asks for NULL or NOT in every
  later comparison, and a list with no AND behind it.
 */
module SqlExamples {

  import opened Common
  import opened SqlLex
  import opened SqlOutput
  import opened SqlChain
  import opened SqlStatement
  import opened SqlSites
  import opened SqlWords
  import opened SqlLaws
  import opened SqlTranslator

  /** The operand that a token and its text spell. */
  function OperandOf(c: Cursor): Operand {
    if c.token.VAR? then Variable(c.text) else if c.token.NULL? then Null else Literal(false, c.text)
  }

  /** The comparison of the field at i: its operator, NOT and the operand. */
  function ComparisonAt(cs: seq<Cursor>, i: nat, negated: bool): Test<Operand>
    requires i + 3 < |cs|
  {
    Compare(cs[i + 1].token, negated, OperandOf(cs[if negated then i + 3 else i + 2]))
  }

  lemma CompareSpelled(src: string, cs: seq<Cursor>, i: nat, open: bool, negated: bool)
    requires Reads(src, cs) && i + (if negated then 4 else 3) < |cs|
    requires cs[i].token.ID? && Operator(cs[i + 1].token) && (negated ==> cs[i + 2].token.NOT?)
    requires var o := cs[if negated then i + 3 else i + 2].token; o.VAR? || o.NUM? || o.NULL?
    ensures TestEnd(src, cs[i], Cond(open, Name(None, cs[i].text), ComparisonAt(cs, i, negated), false))
         == Some(cs[if negated then i + 4 else i + 3])
  {
    hide NextOk, NextCursor;
  }

  lemma MemberSpelled(src: string, cs: seq<Cursor>, i: nat)
    requires Reads(src, cs) && i + 5 < |cs| && cs[i].token.ID? && cs[i + 1].token.IN? && cs[i + 2].token.LPAR?
    requires cs[i + 3].token.NUM? && cs[i + 4].token.RPAR?
    ensures TestEnd(src, cs[i], Cond(false, Name(None, cs[i].text), Member(false, [Number(cs[i + 3].text)]), false))
         == Some(cs[i + 5])
  {
    hide NextOk, NextCursor;
    assert LitsEnd(src, cs[i + 3], [Number(cs[i + 3].text)]) == Some(cs[i + 4]);
  }

  lemma ChainSpelled(src: string, cs: seq<Cursor>, i: nat, open: bool)
    requires Reads(src, cs) && i + 3 < |cs|
    requires cs[i].token.ID? && Operator(cs[i + 1].token) && (cs[i + 2].token.VAR? || cs[i + 2].token.NUM?)
    requires Stops(cs[i + 3].token) && (open ==> i > 0 && cs[i - 1].token.LPAR?)
    ensures var c := cs[if open then i - 1 else i];
            && ChainEnd(src, c, Last(Cond(open, Name(None, cs[i].text), ComparisonAt(cs, i, false), false)), 0)
                 == Some(cs[i + 3])
  {
    hide NextOk, NextCursor, TestEnd;
    CompareSpelled(src, cs, i, open, false);
  }

  lemma FromSpelled(src: string, cs: seq<Cursor>, i: nat)
    requires Reads(src, cs) && i + 2 < |cs|
    requires cs[i].token.FROM? && cs[i + 1].token.ID? && cs[i + 2].token.WHERE?
    ensures FromEnd(src, cs[i], From([cs[i + 1].text], [])) == Some(cs[i + 2])
  {
    hide NextOk, NextCursor;
  }

  // ---------------------------------------------------------------- words

  /** A keyword in capitals is its own token. */
  lemma KeywordToken(w: string, t: Token)
    requires |w| > 1 && Keyword(w) == Some(t) && forall i :: 0 <= i < |w| ==> 'A' <= w[i] <= 'Z'
    ensures TokenOf(w) == Some(t)
  {
    hide Keyword;
    assert Upper(w) == w;
  }

  /** No keyword has one letter or begins with '@'. */
  lemma KeywordShape(w: string)
    requires Keyword(w).Some?
    ensures |w| > 1 && w[0] != '@'
  {
  }

  lemma LetterToken(w: string)
    requires |w| == 1 && 'a' <= w[0] <= 'z'
    ensures TokenOf(w) == Some(ID)
  {
    hide Keyword;
    if Keyword(Upper(w)).Some? {
      KeywordShape(Upper(w));
    }
  }

  lemma VariableToken(w: string)
    requires |w| == 2 && w[0] == '@' && 'a' <= w[1] <= 'z'
    ensures TokenOf(w) == Some(VAR)
  {
    hide Keyword;
    if Keyword(Upper(w)).Some? {
      KeywordShape(Upper(w));
    }
  }

  lemma SignWord(w: string)
    requires |w| == 1 && Sign(w[0]).Some?
    ensures TokenOf(w) == Sign(w[0])
  {
    hide Keyword;
  }

  lemma KeywordTokens()
    ensures TokenOf("CREATE") == Some(CREATE) && TokenOf("PROCEDURE") == Some(PROC) && TokenOf("AS") == Some(AS)
    ensures TokenOf("INT") == Some(INT) && TokenOf("SELECT") == Some(SELECT)
  {
    hide TokenOf;
    KeywordToken("CREATE", CREATE);
    KeywordToken("PROCEDURE", PROC);
    KeywordToken("AS", AS);
    KeywordToken("INT", INT);
    KeywordToken("SELECT", SELECT);
  }

  lemma ClauseTokens()
    ensures TokenOf("FROM") == Some(FROM) && TokenOf("WHERE") == Some(WHERE)
    ensures TokenOf("UNION") == Some(UNION) && TokenOf("DELETE") == Some(DELETE)
  {
    hide TokenOf;
    KeywordToken("FROM", FROM);
    KeywordToken("WHERE", WHERE);
    KeywordToken("UNION", UNION);
    KeywordToken("DELETE", DELETE);
  }

  lemma PredicateTokens()
    ensures TokenOf("IS") == Some(IS) && TokenOf("NULL") == Some(NULL) && TokenOf("NOT") == Some(NOT)
    ensures TokenOf("AND") == Some(AND) && TokenOf("IN") == Some(IN) && TokenOf(")") == Some(RPAR)
  {
    hide TokenOf;
    KeywordToken("IS", IS);
    KeywordToken("NULL", NULL);
    KeywordToken("NOT", NOT);
    KeywordToken("AND", AND);
    KeywordToken("IN", IN);
    SignWord(")");
  }

  lemma OtherTokens()
    ensures TokenOf("s") == Some(ID) && TokenOf("p") == Some(ID) && TokenOf("t") == Some(ID) && TokenOf("c") == Some(ID)
    ensures TokenOf("@a") == Some(VAR) && TokenOf("1") == Some(NUM)
    ensures TokenOf(".") == Some(DOT) && TokenOf("*") == Some(SPLAT) && TokenOf("=") == Some(EQ)
              && TokenOf("(") == Some(LPAR)
  {
    LetterToken("s");
    LetterToken("p");
    LetterToken("t");
    LetterToken("c");
    VariableToken("@a");
    SignWord(".");
    SignWord("*");
    SignWord("=");
    SignWord("(");
  }

  // ---------------------------------------------------------------- a UNION

  function UnionWords(): seq<string> {
    ["CREATE", "PROCEDURE", "s", ".", "p", "@a", "INT", "AS",
     "SELECT", "*", "FROM", "t", "WHERE", "c", "=", "@a", "UNION",
     "SELECT", "*", "FROM", "t", "WHERE", "c", "=", "@a"]
  }

  function UnionTokens(): seq<Token> {
    [CREATE, PROC, ID, DOT, ID, VAR, INT, AS,
     SELECT, SPLAT, FROM, ID, WHERE, ID, EQ, VAR, UNION,
     SELECT, SPLAT, FROM, ID, WHERE, ID, EQ, VAR]
  }

  function UnionText(): string {
    Line(UnionWords())
  }

  /** FROM t WHERE c = @a. */
  function VariableBody(): Body {
    Body(From(["t"], []), Some(Last(Cond(false, Name(None, "c"), Compare(EQ, false, Variable("@a")), false))))
  }

  function Second(): Query {
    Query(false, [], VariableBody(), None, [], None)
  }

  function First(): Query {
    Query(false, [], VariableBody(), None, [], Some(Second()))
  }

  function UnionProcedure(): Procedure {
    Procedure("s", "p", false, [Declaration("@a", Plain(INT))], Select(First()))
  }

  lemma UnionWordTokens()
    ensures |UnionTokens()| == |UnionWords()| == 25
    ensures forall k :: 0 <= k < |UnionWords()| ==> TokenOf(UnionWords()[k]) == Some(UnionTokens()[k])
  {
    hide TokenOf;
    KeywordTokens();
    ClauseTokens();
    OtherTokens();
  }

  /** SELECT * FROM t */
  predicate FromTokens(cs: seq<Cursor>, i: nat) {
    && i + 4 < |cs|
    && cs[i].token.SELECT? && cs[i + 1].token.SPLAT? && cs[i + 2].token.FROM?
    && cs[i + 3].token.ID? && cs[i + 3].text == "t"
  }

  /** WHERE c = @a, and what may follow. */
  predicate TestTokens(cs: seq<Cursor>, i: nat) {
    && i + 4 < |cs|
    && cs[i].token.WHERE? && cs[i + 1].token.ID? && cs[i + 1].text == "c" && cs[i + 2].token.EQ?
    && cs[i + 3].token.VAR? && cs[i + 3].text == "@a"
    && (cs[i + 4].token.UNION? || cs[i + 4].token.EOS?)
  }

  predicate SelectTokens(cs: seq<Cursor>, i: nat) {
    FromTokens(cs, i) && TestTokens(cs, i + 4)
  }

  /** CREATE PROCEDURE s . p */
  predicate TitleTokens(cs: seq<Cursor>) {
    && |cs| > 4
    && cs[0].token.CREATE? && cs[1].token.PROC? && cs[2].token.ID? && cs[2].text == "s" && cs[3].token.DOT?
    && cs[4].token.ID? && cs[4].text == "p"
  }

  predicate UnionRead(src: string, cs: seq<Cursor>) {
    && Reads(src, cs) && |cs| == 26 && TitleTokens(cs) && SelectTokens(cs, 8) && SelectTokens(cs, 17)
    && NextOk(src, INITIAL) && NextCursor(src, INITIAL) == cs[0]
    && cs[5].token.VAR? && cs[5].text == "@a" && cs[6].token.INT? && cs[7].token.AS?
    && cs[16].token.UNION? && cs[25].token.EOS?
  }

  lemma UnionTitleListed(cs: seq<Cursor>)
    requires Listed(cs, UnionWords(), UnionTokens())
    ensures TitleTokens(cs) && |cs| == 26 && cs[25].token.EOS?
    ensures cs[5].token.VAR? && cs[5].text == "@a" && cs[6].token.INT? && cs[7].token.AS?
  {
  }

  lemma UnionFirstListed(cs: seq<Cursor>)
    requires Listed(cs, UnionWords(), UnionTokens())
    ensures FromTokens(cs, 8) && TestTokens(cs, 12) && cs[16].token.UNION?
  {
    FirstFromListed(cs);
    FirstTestListed(cs);
  }

  lemma FirstFromListed(cs: seq<Cursor>)
    requires Listed(cs, UnionWords(), UnionTokens())
    ensures FromTokens(cs, 8)
  {
  }

  lemma FirstTestListed(cs: seq<Cursor>)
    requires Listed(cs, UnionWords(), UnionTokens())
    ensures TestTokens(cs, 12) && cs[16].token.UNION?
  {
  }

  lemma UnionSecondListed(cs: seq<Cursor>)
    requires Listed(cs, UnionWords(), UnionTokens())
    ensures FromTokens(cs, 17) && TestTokens(cs, 21)
  {
  }

  lemma UnionCursors() returns (cs: seq<Cursor>)
    ensures UnionRead(UnionText(), cs)
  {
    hide TokenOf, NextOk, NextCursor, Line, CursorOf, Reads, UnionTokens, UnionWords, TitleTokens, FromTokens;
    hide TestTokens, Listed, CursorsOf;
    UnionWordTokens();
    UnionNames();
    LineCursors(UnionWords(), UnionTokens());
    cs := CursorsOf(UnionWords());
    UnionTitleListed(cs);
    UnionFirstListed(cs);
    UnionSecondListed(cs);
  }

  lemma UnionNames()
    ensures forall k :: 0 <= k < |UnionWords()| - 1 && k < |UnionTokens()| && UnionTokens()[k] == ID ==>
              UnionWords()[k + 1] != "" && UnionWords()[k + 1][0] != '('
  {
  }

  lemma SelectSpelled(src: string, cs: seq<Cursor>, i: nat, q: Query)
    requires Reads(src, cs) && SelectTokens(cs, i)
    requires !q.distinct && q.items == [] && q.having == None && q.order == [] && q.body == VariableBody()
    ensures SelectEnd(src, cs[i], q) == Some(cs[i + 8])
  {
    hide NextOk, NextCursor, FromEnd, ChainEnd;
    FromSpelled(src, cs, i + 2);
    ChainSpelled(src, cs, i + 5, false);
  }

  lemma SecondSpelled(src: string, cs: seq<Cursor>)
    requires Reads(src, cs) && |cs| == 26 && SelectTokens(cs, 17) && cs[25].token.EOS?
    ensures QueryEnd(src, cs[17], Second()) == Some(cs[25])
  {
    hide NextOk, NextCursor, SelectEnd, VariableBody, SelectTokens, Reads;
    SelectSpelled(src, cs, 17, Second());
  }

  lemma FirstSpelled(src: string, cs: seq<Cursor>)
    requires Reads(src, cs) && |cs| == 26 && SelectTokens(cs, 8) && SelectTokens(cs, 17)
    requires cs[16].token.UNION? && cs[25].token.EOS?
    ensures QueryEnd(src, cs[8], First()) == Some(cs[25])
  {
    hide NextOk, NextCursor, SelectEnd, VariableBody, SelectTokens, Second;
    SelectSpelled(src, cs, 8, First());
    SecondSpelled(src, cs);
    assert NextOk(src, cs[16]) && NextCursor(src, cs[16]) == cs[17];
  }

  lemma TitleSpelled(src: string, cs: seq<Cursor>, p: Procedure)
    requires Reads(src, cs) && NextOk(src, INITIAL) && TitleTokens(cs) && NextCursor(src, INITIAL) == cs[0]
    requires p.system == "s" && p.name == "p"
    ensures TitleEnd(src, INITIAL, p) == Some(cs[4])
  {
    hide NextOk, NextCursor;
  }

  lemma UnionParamsSpelled(src: string, cs: seq<Cursor>)
    requires Reads(src, cs) && |cs| > 8
    requires cs[5].token.VAR? && cs[5].text == "@a" && cs[6].token.INT? && cs[7].token.AS?
    ensures ParamsEnd(src, cs[4], UnionProcedure()) == Some(cs[8])
  {
    hide NextOk, NextCursor, First;
    var ds := [Declaration("@a", Plain(INT))];
    assert DeclarationsEnd(src, cs[7], ds[1..]) == Some(cs[7]);
    assert DeclarationsEnd(src, cs[5], ds) == Some(cs[7]);
  }

  lemma UnionSpelled()
    ensures SpellsProcedure(UnionText(), UnionProcedure()) && Accepted(UnionText(), UnionProcedure())
  {
    hide NextOk, NextCursor, UnionText, TitleEnd, ParamsEnd, QueryEnd, Reads, TitleTokens, SelectTokens, First;
    hide Fits, QueryRule;
    var cs := UnionCursors();
    TitleSpelled(UnionText(), cs, UnionProcedure());
    UnionParamsSpelled(UnionText(), cs);
    FirstSpelled(UnionText(), cs);
    UnionRuled();
    UnionFits();
  }

  lemma UnionRuled()
    ensures QueryRule(First())
  {
    assert QueryRule(Second());
  }

  lemma UnionVarsAre()
    ensures SelectVars(Second()) == ["@a"] && SelectVars(First()) == ["@a"]
    ensures QueryVars(First()) == ["@a", "@a"]
  {
  }

  function UnionLookup(): map<string, nat> {
    map["@a" := 0]
  }

  lemma UnionFits()
    ensures Fits(UnionProcedure()) && LookupOf(UnionProcedure().params) == UnionLookup()
  {
    hide First;
    UnionVarsAre();
    var ds := [Declaration("@a", Plain(INT))];
    assert ds[..0] == [];
    assert LookupOf(ds) == UnionLookup();
    forall i: nat
      ensures Count(["@a", "@a"], UnionLookup(), i) <= 2
    {
      CountConcat(["@a"], ["@a"], UnionLookup(), i);
      assert ["@a"] + ["@a"] == ["@a", "@a"];
      assert ["@a"][..0] == [];
    }
  }

  lemma UnionHostsAre()
    ensures QueryHosts(First(), UnionLookup(), 1) == [Host("a", 0, 0, 1), Host("a", 0, 0, 2)]
  {
    UnionVarsAre();
    assert VarName("@a") == "a";
  }

  /** An accepted text with two placeholders that are bound to index 0. */
  method IndicesCollide() returns (ok: bool, t: Translator)
    ensures t.src == UnionText() && ok
    ensures t.hosts == [Host("a", 0, 0, 1), Host("a", 0, 0, 2)] && !InOrder(t.hosts)
  {
    hide SpellsProcedure, Fits, StatementPieces, QueryHosts, LookupOf, Heads, Opens, UnionText, First, Numbered;
    hide Balance, NeverOverClosed, HostsOf, UnboundIn, AllStored, Named, Newlines, OneActivation;
    UnionSpelled();
    UnionFits();
    UnionHostsAre();
    var kind;
    ok, kind, t := TranslateProcedure(UnionText(), Some(UnionProcedure()));
    assert t.hosts[1].index == 0;
  }

  // ---------------------------------------------------------------- DELETEs

  function FrontWords(): seq<string> {
    ["CREATE", "PROCEDURE", "s", ".", "p", "AS", "DELETE", "FROM", "t", "WHERE"]
  }

  function FrontTokens(): seq<Token> {
    [CREATE, PROC, ID, DOT, ID, AS, DELETE, FROM, ID, WHERE]
  }

  /** CREATE PROCEDURE s . p AS DELETE FROM t WHERE, and the words of the conditions. */
  function DeleteText(rest: seq<string>): string {
    Line(FrontWords() + rest)
  }

  function DeleteBody(ch: Chain<Operand>): Body {
    Body(From(["t"], []), Some(ch))
  }

  function Deletion(ch: Chain<Operand>): Procedure {
    Procedure("s", "p", false, [], Delete(DeleteBody(ch)))
  }

  predicate FrontRead(cs: seq<Cursor>) {
    && |cs| > 10 && TitleTokens(cs)
    && cs[5].token.AS? && cs[6].token.DELETE? && cs[7].token.FROM? && cs[8].token.ID? && cs[8].text == "t"
    && cs[9].token.WHERE?
  }

  lemma FrontListed(cs: seq<Cursor>, rest: seq<string>, ts: seq<Token>)
    requires Listed(cs, FrontWords() + rest, FrontTokens() + ts) && |rest| == |ts|
    ensures FrontRead(cs)
  {
    var ws, us := FrontWords() + rest, FrontTokens() + ts;
    assert forall k :: 0 <= k < 10 ==> ws[k] == FrontWords()[k] && us[k] == FrontTokens()[k];
  }

  /** The words of the conditions have these tokens, and no name stands before '('. */
  predicate Conditions(rest: seq<string>, ts: seq<Token>) {
    && |rest| == |ts|
    && (forall k :: 0 <= k < |rest| ==> TokenOf(rest[k]) == Some(ts[k]))
    && (forall k :: 0 <= k < |rest| - 1 && ts[k] == ID ==> rest[k + 1] != "" && rest[k + 1][0] != '(')
  }

  /** The cursors of such a text: those of the front, and behind them the conditions'. */
  lemma DeleteCursors(rest: seq<string>, ts: seq<Token>) returns (cs: seq<Cursor>)
    requires Conditions(rest, ts)
    ensures Reads(DeleteText(rest), cs) && FrontRead(cs) && |cs| == |rest| + 11
    ensures NextOk(DeleteText(rest), INITIAL) && NextCursor(DeleteText(rest), INITIAL) == cs[0]
    ensures Listed(cs[10..], rest, ts)
  {
    hide TokenOf, NextOk, NextCursor, Line, CursorOf, Reads, CursorsOf, TitleTokens, FrontWords, FrontTokens, Listed;
    hide FrontRead;
    FrontConditions(rest, ts);
    LineCursors(FrontWords() + rest, FrontTokens() + ts);
    cs := CursorsOf(FrontWords() + rest);
    FrontListed(cs, rest, ts);
    RestListed(cs, rest, ts);
  }

  lemma FrontConditions(rest: seq<string>, ts: seq<Token>)
    requires Conditions(rest, ts)
    ensures Conditions(FrontWords() + rest, FrontTokens() + ts) && |FrontWords() + rest| == |rest| + 10
  {
    hide TokenOf, FrontWords, FrontTokens;
    FrontTokensAre();
    var ws, us := FrontWords() + rest, FrontTokens() + ts;
    forall k | 0 <= k < |ws|
      ensures TokenOf(ws[k]) == Some(us[k])
      ensures k < |ws| - 1 && us[k] == ID ==> ws[k + 1] != "" && ws[k + 1][0] != '('
    {
      if k < 10 {
        assert ws[k] == FrontWords()[k] && us[k] == FrontTokens()[k];
        assert k < 9 ==> ws[k + 1] == FrontWords()[k + 1];
      } else {
        assert ws[k] == rest[k - 10] && us[k] == ts[k - 10];
        assert k < |ws| - 1 ==> ws[k + 1] == rest[k - 10 + 1];
      }
    }
  }

  lemma RestListed(cs: seq<Cursor>, rest: seq<string>, ts: seq<Token>)
    requires Listed(cs, FrontWords() + rest, FrontTokens() + ts) && |rest| == |ts|
    ensures Listed(cs[10..], rest, ts)
  {
    var ws, us := FrontWords() + rest, FrontTokens() + ts;
    forall k | 0 <= k < |rest|
      ensures cs[10..][k].token == ts[k] && cs[10..][k].text == rest[k]
    {
      assert ws[10 + k] == rest[k] && us[10 + k] == ts[k];
    }
  }

  lemma FrontTokensAre()
    ensures |FrontWords()| == |FrontTokens()| == 10
    ensures forall k :: 0 <= k < 10 ==> TokenOf(FrontWords()[k]) == Some(FrontTokens()[k])
    ensures forall k :: 0 <= k < 9 && FrontTokens()[k] == ID ==>
              FrontWords()[k + 1] != "" && FrontWords()[k + 1][0] != '('
    ensures FrontTokens()[9] != ID
  {
    hide TokenOf;
    KeywordTokens();
    ClauseTokens();
    OtherTokens();
  }

  lemma DeletionSpelled(src: string, cs: seq<Cursor>, ch: Chain<Operand>, e: nat)
    requires Reads(src, cs) && FrontRead(cs) && NextOk(src, INITIAL) && NextCursor(src, INITIAL) == cs[0]
    requires e < |cs| && ChainEnd(src, cs[10], ch, 0) == Some(cs[e])
    ensures ProcedureEnd(src, Deletion(ch)) == Some(cs[e])
  {
    hide NextOk, NextCursor, TitleEnd, FromEnd, ChainEnd, TitleTokens;
    TitleSpelled(src, cs, Deletion(ch));
    DeleteParamsSpelled(src, cs, ch);
    FromSpelled(src, cs, 7);
  }

  lemma DeleteParamsSpelled(src: string, cs: seq<Cursor>, ch: Chain<Operand>)
    requires Reads(src, cs) && |cs| > 6 && cs[5].token.AS?
    ensures ParamsEnd(src, cs[4], Deletion(ch)) == Some(cs[6])
  {
    hide NextOk, NextCursor;
  }

  lemma DeletionFits(ch: Chain<Operand>)
    requires ChainVars(ch) == []
    ensures Fits(Deletion(ch))
  {
    assert StatementVars(Delete(DeleteBody(ch))) == [];
  }

  lemma DeletionUnclosed(ch: Chain<Operand>)
    ensures Unclosed(StatementSites(Delete(DeleteBody(ch)))) == ChainDepth(ch, 0)
  {
    var xs := BodySites(DeleteBody(ch), 0, 0);
    assert xs == [Site(ch, 0, 0)];
    assert xs[1..] == [];
  }

  function FrontPieces(): seq<Piece> {
    [Word("DELETE ")] + ([Word("FROM ")] + [Word("="), Word("t"), Word(" "), Word("t"), Word(" ")])
  }

  lemma DeletionPieces(ch: Chain<Operand>, lookup: map<string, nat>)
    ensures StatementPieces(Delete(DeleteBody(ch)), lookup)
         == FrontPieces() + ([Word(" WHERE ")] + ChainPieces(Translate(ch, lookup, 0, 0)))
  {
    hide ChainPieces, Translate, TablesPieces;
    var tables := TablesPieces(["t"]);
    TableIs();
    assert JoinsPieces([], lookup, 0, 0) == [];
    assert tables + [] == tables;
    Assoc([Word("DELETE ")], [Word("FROM ")] + tables, [Word(" WHERE ")] + ChainPieces(Translate(ch, lookup, 0, 0)));
  }

  lemma TableIs()
    ensures TablesPieces(["t"]) == [Word("="), Word("t"), Word(" "), Word("t"), Word(" ")]
  {
  }

  lemma DeletionRenders(ch: Chain<Operand>, lookup: map<string, nat>)
    ensures RenderAll(StatementPieces(Delete(DeleteBody(ch)), lookup))
         == "DELETE FROM =t t  WHERE " + ChainText(ch, Renamed)
  {
    hide RenderAll, Translate, ChainPieces, StatementPieces, DeleteBody, FrontPieces, ChainText;
    var chain := ChainPieces(Translate(ch, lookup, 0, 0));
    DeletionPieces(ch, lookup);
    RenderConcat(FrontPieces(), [Word(" WHERE ")] + chain);
    RenderConcat([Word(" WHERE ")], chain);
    RenderOne(Word(" WHERE "));
    TranslationRenames(ch, lookup, 0, 0);
    FrontRenders();
    assert "DELETE FROM =t t " + (" WHERE " + ChainText(ch, Renamed))
        == "DELETE FROM =t t  WHERE " + ChainText(ch, Renamed);
  }

  lemma FrontRenders()
    ensures RenderAll(FrontPieces()) == "DELETE FROM =t t "
  {
    hide RenderAll;
    RenderConcat([Word("DELETE ")], [Word("FROM ")] + [Word("="), Word("t"), Word(" "), Word("t"), Word(" ")]);
    RenderConcat([Word("FROM ")], [Word("="), Word("t"), Word(" "), Word("t"), Word(" ")]);
    RenderConcat([Word("="), Word("t")], [Word(" "), Word("t"), Word(" ")]);
    RenderConcat([Word("=")], [Word("t")]);
    RenderConcat([Word(" "), Word("t")], [Word(" ")]);
    RenderConcat([Word(" ")], [Word("t")]);
    assert [Word("=")] + [Word("t")] == [Word("="), Word("t")];
    assert [Word(" ")] + [Word("t")] == [Word(" "), Word("t")];
    assert [Word(" "), Word("t")] + [Word(" ")] == [Word(" "), Word("t"), Word(" ")];
    assert [Word("="), Word("t")] + [Word(" "), Word("t"), Word(" ")]
        == [Word("="), Word("t"), Word(" "), Word("t"), Word(" ")];
    RenderOne(Word("DELETE "));
    RenderOne(Word("FROM "));
    RenderOne(Word("="));
    RenderOne(Word("t"));
    RenderOne(Word(" "));
  }

  /** Translates such a text, whose conditions spell a chain without variables up to
      cursor e. */
  method TranslateDeletion(
    rest: seq<string>, ghost cs: seq<Cursor>, ghost ch: Chain<Operand>, ghost e: nat) returns (ok: bool, t: Translator)
    requires e < |cs| && ProcedureEnd(DeleteText(rest), Deletion(ch)) == Some(cs[e]) && ChainVars(ch) == []
    ensures t.src == DeleteText(rest)
    ensures ok <==> Finished(DeleteText(rest), cs[e]) && ChainRule(ch, false, 0)
    ensures ok ==> Balance(t.out) == ChainDepth(ch, 0)
    ensures ok ==> RenderAll(t.out) == "DELETE FROM =t t  WHERE " + ChainText(ch, Renamed)
  {
    hide ProcedureEnd, Fits, StatementPieces, StatementHosts, LookupOf, Heads, Opens, DeleteText, Numbered, ChainRule;
    hide Balance, NeverOverClosed, HostsOf, UnboundIn, AllStored, Named, Newlines, OneActivation, InOrder, Finished;
    hide Unclosed, StatementSites, RenderAll, ChainDepth, ChainText;
    DeletionFits(ch);
    DeletionUnclosed(ch);
    var kind;
    ok, kind, t := TranslateProcedure(DeleteText(rest), Some(Deletion(ch)));
    DeletionRenders(ch, t.lookup);
  }

  /** c = 1 */
  function EqualOne(open: bool, negated: bool): Cond<Operand> {
    Cond(open, Name(None, "c"), Compare(EQ, negated, Literal(false, "1")), false)
  }

  lemma EqualText(negated: bool)
    ensures CondText(EqualOne(false, negated), Renamed) == if negated then "c = NOT 1 " else "c = 1 "
  {
    assert "" + "c" + (" = " + (if negated then "NOT " else "") + "1" + "" + " ") + ""
        == if negated then "c = NOT 1 " else "c = 1 ";
  }

  // ---------------------------------------------------------------- an open parenthesis

  /** An accepted text whose translation leaves a parenthesis open. */
  method ParenthesisLeftOpen() returns (ok: bool, t: Translator)
    ensures t.src == DeleteText(["(", "c", "=", "1"]) && ok && Balance(t.out) == 1
    ensures RenderAll(t.out) == "DELETE FROM =t t  WHERE (c = 1 "
  {
    hide DeleteText, RenderAll, Balance, ProcedureEnd, NextOk, NextCursor;
    ghost var cs := OpenSpelled();
    ok, t := TranslateDeletion(["(", "c", "=", "1"], cs, Last(EqualOne(true, false)), 14);
    OpenText();
  }

  lemma OpenSpelled() returns (cs: seq<Cursor>)
    ensures |cs| == 15 && cs[14].token.EOS?
    ensures ProcedureEnd(DeleteText(["(", "c", "=", "1"]), Deletion(Last(EqualOne(true, false)))) == Some(cs[14])
  {
    hide TokenOf, NextOk, NextCursor, DeleteText, Reads, FrontRead, ChainEnd, ProcedureEnd;
    var rest, ts := ["(", "c", "=", "1"], [LPAR, ID, EQ, NUM];
    OtherTokens();
    cs := DeleteCursors(rest, ts);
    assert forall k :: 0 <= k < 5 ==> cs[10..][k] == cs[10 + k];
    ChainSpelled(DeleteText(rest), cs, 11, true);
    DeletionSpelled(DeleteText(rest), cs, Last(EqualOne(true, false)), 14);
  }

  lemma OpenText()
    ensures ChainText(Last(EqualOne(true, false)), Renamed) == "(c = 1 "
    ensures ChainDepth(Last(EqualOne(true, false)), 0) == 1
    ensures "DELETE FROM =t t  WHERE " + "(c = 1 " == "DELETE FROM =t t  WHERE (c = 1 "
  {
  }

  // ---------------------------------------------------------------- IS

  function NullCond(): Cond<Operand> {
    Cond(false, Name(None, "c"), Compare(IS, false, Null), false)
  }

  /** c IS NULL AND c = 1, or c = NOT 1. */
  function NullChain(negated: bool): Chain<Operand> {
    Join(NullCond(), Conj(true, "AND"), Last(EqualOne(false, negated)))
  }

  function NullWords(negated: bool): seq<string> {
    ["c", "IS", "NULL", "AND", "c", "="] + (if negated then ["NOT", "1"] else ["1"])
  }

  function NullTokens(negated: bool): seq<Token> {
    [ID, IS, NULL, AND, ID, EQ] + (if negated then [NOT, NUM] else [NUM])
  }

  lemma NullConditions(negated: bool)
    ensures Conditions(NullWords(negated), NullTokens(negated))
  {
    hide TokenOf;
    PredicateTokens();
    OtherTokens();
  }

  lemma NullSpelled(negated: bool) returns (cs: seq<Cursor>, e: nat)
    ensures e < |cs| && cs[e].token.EOS?
    ensures ProcedureEnd(DeleteText(NullWords(negated)), Deletion(NullChain(negated))) == Some(cs[e])
  {
    hide TokenOf, NextOk, NextCursor, DeleteText, FrontRead, ProcedureEnd, NullWords, NullTokens, NullChain, ChainEnd;
    hide Reads, Listed;
    var src := DeleteText(NullWords(negated));
    NullConditions(negated);
    cs := DeleteCursors(NullWords(negated), NullTokens(negated));
    NullListed(cs, negated);
    e := if negated then 18 else 17;
    NullChainSpelled(src, cs, negated);
    DeletionSpelled(src, cs, NullChain(negated), e);
  }

  predicate NullRead(cs: seq<Cursor>, negated: bool) {
    && |cs| == (if negated then 19 else 18)
    && cs[10].token.ID? && cs[10].text == "c" && cs[11].token.IS? && cs[12].token.NULL?
    && cs[13].token.AND? && cs[13].text == "AND"
    && cs[14].token.ID? && cs[14].text == "c" && cs[15].token.EQ? && (negated ==> cs[16].token.NOT?)
    && var i := if negated then 17 else 16;
       cs[i].token.NUM? && cs[i].text == "1" && cs[i + 1].token.EOS?
  }

  lemma NullListed(cs: seq<Cursor>, negated: bool)
    requires |cs| == |NullWords(negated)| + 11 && Listed(cs[10..], NullWords(negated), NullTokens(negated))
    ensures NullRead(cs, negated)
  {
    assert forall k :: 0 <= k < |cs| - 10 ==> cs[10..][k] == cs[10 + k];
  }

  lemma NullChainSpelled(src: string, cs: seq<Cursor>, negated: bool)
    requires Reads(src, cs) && NullRead(cs, negated)
    ensures ChainEnd(src, cs[10], NullChain(negated), 0) == Some(cs[if negated then 18 else 17])
  {
    hide NextOk, NextCursor, TestEnd;
    CompareSpelled(src, cs, 10, false, false);
    CompareSpelled(src, cs, 14, false, negated);
    assert ChainEnd(src, cs[14], Last(EqualOne(false, negated)), 0) == Some(cs[if negated then 18 else 17]);
  }

  lemma NullText(negated: bool)
    ensures ChainRule(NullChain(negated), false, 0) <==> negated
    ensures ChainVars(NullChain(negated)) == []
  {
    assert ChainVars(Last(EqualOne(false, negated))) == [];
    assert ChainRule(Last(EqualOne(false, negated)), true, 0) <==> negated;
  }

  lemma NotText()
    ensures ChainText(NullChain(true), Renamed) == "c IS  NULL  AND c = NOT 1 "
  {
    hide CondText;
    NullCondText();
    EqualText(true);
    assert "c IS  NULL  " + ("AND" + " ") + "c = NOT 1 " == "c IS  NULL  AND c = NOT 1 ";
  }

  lemma NullCondText()
    ensures CondText(NullCond(), Renamed) == "c IS  NULL  "
  {
    assert "" + "c" + (" IS " + "" + " NULL " + "" + " ") + "" == "c IS  NULL  ";
  }

  /** After an IS the comparison `c = 1` is refused and `c = NOT 1` is taken. */
  method NotAfterIs(negated: bool) returns (ok: bool, t: Translator)
    ensures t.src == DeleteText(NullWords(negated)) && (ok <==> negated)
    ensures ok ==> RenderAll(t.out) == "DELETE FROM =t t  WHERE c IS  NULL  AND c = NOT 1 "
  {
    hide DeleteText, RenderAll, Balance, ProcedureEnd, NextOk, NextCursor, NullWords, NullChain, ChainText, ChainRule;
    ghost var cs, e := NullSpelled(negated);
    NullText(negated);
    NotText();
    ok, t := TranslateDeletion(NullWords(negated), cs, NullChain(negated), e);
    assert "DELETE FROM =t t  WHERE " + "c IS  NULL  AND c = NOT 1 "
        == "DELETE FROM =t t  WHERE c IS  NULL  AND c = NOT 1 ";
  }

  // ---------------------------------------------------------------- IN

  function ListCond(): Cond<Operand> {
    Cond(false, Name(None, "c"), Member(false, [Number("1")]), false)
  }

  /** c IN (1) as far as it goes on: up to an AND, or over the next condition. */
  function ListChain(joined: bool): Chain<Operand> {
    if joined then Last(ListCond()) else Join(ListCond(), Bare, Last(EqualOne(false, false)))
  }

  function ListWords(joined: bool): seq<string> {
    ["c", "IN", "(", "1", ")"] + if joined then ["AND", "c", "=", "1"] else ["c", "=", "1"]
  }

  function ListTokens(joined: bool): seq<Token> {
    [ID, IN, LPAR, NUM, RPAR] + if joined then [AND, ID, EQ, NUM] else [ID, EQ, NUM]
  }

  lemma ListConditions(joined: bool)
    ensures Conditions(ListWords(joined), ListTokens(joined))
  {
    hide TokenOf;
    PredicateTokens();
    OtherTokens();
  }

  lemma ListSpelled(joined: bool) returns (cs: seq<Cursor>, e: nat)
    ensures e < |cs| && if joined then cs[e].token.AND? else cs[e].token.EOS?
    ensures ProcedureEnd(DeleteText(ListWords(joined)), Deletion(ListChain(joined))) == Some(cs[e])
  {
    hide TokenOf, NextOk, NextCursor, DeleteText, FrontRead, ProcedureEnd, ListWords, ListTokens, ListChain, ChainEnd;
    hide Reads, Listed;
    var src := DeleteText(ListWords(joined));
    ListConditions(joined);
    cs := DeleteCursors(ListWords(joined), ListTokens(joined));
    ListListed(cs, joined);
    e := if joined then 15 else 18;
    ListChainSpelled(src, cs, joined);
    DeletionSpelled(src, cs, ListChain(joined), e);
  }

  predicate ListRead(cs: seq<Cursor>, joined: bool) {
    && |cs| == (if joined then 20 else 19)
    && cs[10].token.ID? && cs[10].text == "c" && cs[11].token.IN? && cs[12].token.LPAR?
    && cs[13].token.NUM? && cs[13].text == "1" && cs[14].token.RPAR?
    && (if joined then cs[15].token.AND?
        else
          && cs[15].token.ID? && cs[15].text == "c" && cs[16].token.EQ? && cs[17].token.NUM? && cs[17].text == "1"
          && cs[18].token.EOS?)
  }

  lemma ListListed(cs: seq<Cursor>, joined: bool)
    requires |cs| == |ListWords(joined)| + 11 && Listed(cs[10..], ListWords(joined), ListTokens(joined))
    ensures ListRead(cs, joined)
  {
    assert forall k :: 0 <= k < |cs| - 10 ==> cs[10..][k] == cs[10 + k];
  }

  lemma ListChainSpelled(src: string, cs: seq<Cursor>, joined: bool)
    requires Reads(src, cs) && ListRead(cs, joined)
    ensures ChainEnd(src, cs[10], ListChain(joined), 0) == Some(cs[if joined then 15 else 18])
  {
    hide NextOk, NextCursor, TestEnd;
    MemberSpelled(src, cs, 10);
    if !joined {
      ChainSpelled(src, cs, 15, false);
    }
  }

  lemma ListText()
    ensures ChainText(ListChain(false), Renamed) == "c IN (1)c = 1 "
  {
    hide CondText;
    ListCondText();
    EqualText(false);
    assert "c IN (1)" + "" + "c = 1 " == "c IN (1)c = 1 ";
  }

  lemma ListCondText()
    ensures CondText(ListCond(), Renamed) == "c IN (1)"
  {
    assert "" + "c" + ("" + " IN (" + "1" + ")") + "" == "c IN (1)";
  }

  lemma ListRuled(joined: bool)
    ensures ChainRule(ListChain(joined), false, 0) && ChainVars(ListChain(joined)) == []
  {
    assert ChainVars(Last(EqualOne(false, false))) == [];
    assert ChainRule(Last(EqualOne(false, false)), false, 0);
  }

  /** Behind a list the next condition is taken without a conjunction, and an AND is
      refused. */
  method ConditionAfterList(joined: bool) returns (ok: bool, t: Translator)
    ensures t.src == DeleteText(ListWords(joined)) && (ok <==> !joined)
    ensures ok ==> RenderAll(t.out) == "DELETE FROM =t t  WHERE c IN (1)c = 1 "
  {
    hide DeleteText, RenderAll, Balance, ProcedureEnd, NextOk, NextCursor, ListWords, ListChain, ChainText, ChainRule;
    ghost var cs, e := ListSpelled(joined);
    ListRuled(joined);
    ListText();
    ok, t := TranslateDeletion(ListWords(joined), cs, ListChain(joined), e);
    assert "DELETE FROM =t t  WHERE " + "c IN (1)c = 1 " == "DELETE FROM =t t  WHERE c IN (1)c = 1 ";
  }
}
