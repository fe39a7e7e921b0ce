/**
  A SELECT with DISTINCT, a LEFT JOIN, WHERE, HAVING and ORDER BY, and its whole
  translation.
 */
module SqlQueryExample {

  import opened Common
  import opened SqlLex
  import opened SqlOutput
  import opened SqlChain
  import opened SqlStatement
  import opened SqlWords
  import opened SqlLaws
  import opened SqlTranslator
  import opened SqlExamples

  function HeadWords(): seq<string> {
    ["CREATE", "PROCEDURE", "s", ".", "p", "AS", "SELECT", "DISTINCT", "c", "FROM", "t"]
  }

  function HeadTokens(): seq<Token> {
    [CREATE, PROC, ID, DOT, ID, AS, SELECT, DISTINCT, ID, FROM, ID]
  }

  function TailWords(): seq<string> {
    ["LEFT", "JOIN", "u", "ON", "c", "<", "d", "WHERE", "c", "=", "-1",
     "HAVING", "c", ">", "1", "ORDER", "BY", "c", "ASC"]
  }

  function TailTokens(): seq<Token> {
    [LEFT, JOIN, ID, ON, ID, LT, ID, WHERE, ID, EQ, NUM,
     HAVING, ID, GT, NUM, ORDER, BY, ID, ASC]
  }

  function QueryWords(): seq<string> {
    HeadWords() + TailWords()
  }

  function QueryTokens(): seq<Token> {
    HeadTokens() + TailTokens()
  }

  function QueryText(): string {
    Line(QueryWords())
  }

  function Column(n: string): Name {
    Name(None, n)
  }

  function OnChain(): Chain<Operand> {
    Last(Cond(false, Column("c"), Compare(LT, false, Operand.Column(Column("d"))), false))
  }

  function NumberChain(op: Token, number: string): Chain<Operand> {
    Last(Cond(false, Column("c"), Compare(op, false, Literal(false, number)), false))
  }

  function QueryFrom(): From {
    From(["t"], [Joining(LEFT, "LEFT", "u", OnChain())])
  }

  function QueryBody(): Body {
    Body(QueryFrom(), Some(NumberChain(EQ, "-1")))
  }

  function TheQuery(): Query {
    Query(true, [Item(Column("c"), None)], QueryBody(), Some(NumberChain(GT, "1")),
          [Sort(Column("c"), Some(ASC))], None)
  }

  function QueryProcedure(): Procedure {
    Procedure("s", "p", false, [], Select(TheQuery()))
  }

  // ---------------------------------------------------------------- its words

  lemma JoinKeywords()
    ensures TokenOf("DISTINCT") == Some(DISTINCT) && TokenOf("LEFT") == Some(LEFT) && TokenOf("JOIN") == Some(JOIN)
  {
    hide TokenOf;
    KeywordToken("DISTINCT", DISTINCT);
    KeywordToken("LEFT", LEFT);
    KeywordToken("JOIN", JOIN);
  }

  lemma OnKeywords()
    ensures TokenOf("ON") == Some(ON) && TokenOf("HAVING") == Some(HAVING)
  {
    hide TokenOf;
    KeywordToken("ON", ON);
    KeywordToken("HAVING", HAVING);
  }

  lemma OrderKeywords()
    ensures TokenOf("ORDER") == Some(ORDER) && TokenOf("BY") == Some(BY) && TokenOf("ASC") == Some(ASC)
    ensures TokenOf("u") == Some(ID) && TokenOf("d") == Some(ID) && TokenOf("-1") == Some(NUM)
    ensures TokenOf("<") == Some(LT) && TokenOf(">") == Some(GT)
  {
    hide TokenOf;
    KeywordToken("ORDER", ORDER);
    KeywordToken("BY", BY);
    KeywordToken("ASC", ASC);
    LetterToken("u");
    LetterToken("d");
    SignWord("<");
    SignWord(">");
    NegativeToken("-1");
  }

  lemma NegativeToken(w: string)
    requires |w| == 2 && w[0] == '-' && IsDigit(w[1])
    ensures TokenOf(w) == Some(NUM)
  {
    hide Keyword;
  }

  lemma HeadWordTokens()
    ensures Conditions(HeadWords(), HeadTokens()) && |HeadWords()| == 11
  {
    hide TokenOf;
    KeywordTokens();
    ClauseTokens();
    OtherTokens();
    JoinKeywords();
  }

  lemma TailWordTokens()
    ensures Conditions(TailWords(), TailTokens()) && |TailWords()| == 19 && TailWords()[0] == "LEFT"
  {
    hide TokenOf;
    ClauseTokens();
    OtherTokens();
    JoinKeywords();
    OnKeywords();
    OrderKeywords();
  }

  lemma QueryWordTokens()
    ensures Conditions(QueryWords(), QueryTokens()) && |QueryWords()| == 30
  {
    hide TokenOf, HeadWords, HeadTokens, TailWords, TailTokens;
    HeadWordTokens();
    TailWordTokens();
    var ws, ts := QueryWords(), QueryTokens();
    forall k | 0 <= k < |ws|
      ensures TokenOf(ws[k]) == Some(ts[k])
      ensures k < |ws| - 1 && ts[k] == ID ==> ws[k + 1] != "" && ws[k + 1][0] != '('
    {
      if k < 11 {
        assert ws[k] == HeadWords()[k] && ts[k] == HeadTokens()[k];
        assert k < 10 ==> ws[k + 1] == HeadWords()[k + 1];
        assert k == 10 ==> ws[k + 1] == TailWords()[0];
      } else {
        assert ws[k] == TailWords()[k - 11] && ts[k] == TailTokens()[k - 11];
        assert k < |ws| - 1 ==> ws[k + 1] == TailWords()[k - 10];
      }
    }
  }

  /** SELECT DISTINCT c FROM t */
  predicate HeadRead(cs: seq<Cursor>) {
    && |cs| == 31
    && cs[5].token.AS? && cs[6].token.SELECT? && cs[7].token.DISTINCT? && cs[8].token.ID? && cs[8].text == "c"
    && cs[9].token.FROM? && cs[10].token.ID? && cs[10].text == "t"
  }

  /** LEFT JOIN u ON c < d */
  predicate JoinRead(cs: seq<Cursor>) {
    && |cs| == 31
    && cs[11].token.LEFT? && cs[11].text == "LEFT" && cs[12].token.JOIN? && cs[13].token.ID? && cs[13].text == "u"
    && cs[14].token.ON? && cs[15].token.ID? && cs[15].text == "c" && cs[16].token.LT?
    && cs[17].token.ID? && cs[17].text == "d"
  }

  /** WHERE c = -1 HAVING c > 1 */
  predicate WhereRead(cs: seq<Cursor>) {
    && |cs| == 31
    && cs[18].token.WHERE? && cs[19].token.ID? && cs[19].text == "c" && cs[20].token.EQ?
    && cs[21].token.NUM? && cs[21].text == "-1"
    && cs[22].token.HAVING? && cs[23].token.ID? && cs[23].text == "c" && cs[24].token.GT?
    && cs[25].token.NUM? && cs[25].text == "1"
  }

  /** ORDER BY c ASC */
  predicate OrderRead(cs: seq<Cursor>) {
    && |cs| == 31
    && cs[26].token.ORDER? && cs[27].token.BY? && cs[28].token.ID? && cs[28].text == "c" && cs[29].token.ASC?
    && cs[30].token.EOS?
  }

  lemma HeadListed(cs: seq<Cursor>)
    requires |cs| == 31 && forall k :: 0 <= k < 11 ==> cs[k].token == HeadTokens()[k] && cs[k].text == HeadWords()[k]
    ensures TitleTokens(cs) && HeadRead(cs)
  {
  }

  /** The cursors from LEFT on. */
  predicate TailListed(cs: seq<Cursor>) {
    && |cs| == 31 && cs[30].token.EOS?
    && forall k :: 11 <= k < 30 ==> cs[k].token == TailTokens()[k - 11] && cs[k].text == TailWords()[k - 11]
  }

  lemma JoinListed(cs: seq<Cursor>)
    requires TailListed(cs)
    ensures JoinRead(cs)
  {
  }

  lemma WhereListed(cs: seq<Cursor>)
    requires TailListed(cs)
    ensures WhereRead(cs)
  {
  }

  lemma OrderListed(cs: seq<Cursor>)
    requires TailListed(cs)
    ensures OrderRead(cs)
  {
  }

  lemma QueryListed(cs: seq<Cursor>)
    requires Listed(cs, QueryWords(), QueryTokens())
    ensures TitleTokens(cs) && HeadRead(cs) && JoinRead(cs) && WhereRead(cs) && OrderRead(cs)
  {
    hide TokenOf, HeadWords, HeadTokens, TailWords, TailTokens, TitleTokens, HeadRead, JoinRead, WhereRead, OrderRead;
    HeadWordTokens();
    TailWordTokens();
    HeadListed(cs);
    JoinListed(cs);
    WhereListed(cs);
    OrderListed(cs);
  }

  lemma QueryCursors() returns (cs: seq<Cursor>)
    ensures Reads(QueryText(), cs) && TitleTokens(cs) && HeadRead(cs) && JoinRead(cs) && WhereRead(cs)
    ensures OrderRead(cs) && NextOk(QueryText(), INITIAL) && NextCursor(QueryText(), INITIAL) == cs[0]
  {
    hide TokenOf, NextOk, NextCursor, Line, CursorOf, Reads, QueryTokens, QueryWords, TitleTokens, HeadRead;
    hide JoinRead, WhereRead, OrderRead, Listed, CursorsOf;
    QueryWordTokens();
    LineCursors(QueryWords(), QueryTokens());
    cs := CursorsOf(QueryWords());
    QueryListed(cs);
  }

  // ---------------------------------------------------------------- what it spells

  lemma OnSpelled(src: string, cs: seq<Cursor>)
    requires Reads(src, cs) && JoinRead(cs) && cs[18].token.WHERE?
    ensures ChainEnd(src, cs[15], OnChain(), 0) == Some(cs[18])
  {
    hide NextOk, NextCursor;
  }

  lemma FromWhereSpelled(src: string, cs: seq<Cursor>)
    requires Reads(src, cs) && HeadRead(cs) && JoinRead(cs) && WhereRead(cs)
    ensures BodyEnd(src, cs[9], QueryBody()) == Some(cs[22])
  {
    hide NextOk, NextCursor, ChainEnd;
    OnSpelled(src, cs);
    ChainSpelled(src, cs, 19, false);
    assert JoinsEnd(src, cs[18], []) == Some(cs[18]);
    assert JoinsEnd(src, cs[11], QueryFrom().joins) == Some(cs[18]) by {
      assert QueryFrom().joins[1..] == [];
      assert JoinEnd(src, cs[11], QueryFrom().joins[0]) == Some(cs[18]);
    }
  }

  lemma HavingOrderSpelled(src: string, cs: seq<Cursor>)
    requires Reads(src, cs) && WhereRead(cs) && OrderRead(cs)
    ensures TrailEnd(src, cs[22], TheQuery()) == Some(cs[30])
  {
    hide NextOk, NextCursor, ChainEnd, QueryBody;
    ChainSpelled(src, cs, 23, false);
    assert SortsEnd(src, cs[28], TheQuery().order) == Some(cs[30]);
  }

  lemma HeadSpelled(src: string, cs: seq<Cursor>)
    requires Reads(src, cs) && HeadRead(cs)
    ensures SelectHeadEnd(src, cs[6], true) == Some(cs[8]) && FieldsEnd(src, cs[8], TheQuery().items) == Some(cs[9])
  {
    hide NextOk, NextCursor, QueryBody, NumberChain;
  }

  lemma ParamsSpelled(src: string, cs: seq<Cursor>)
    requires Reads(src, cs) && HeadRead(cs)
    ensures ParamsEnd(src, cs[4], QueryProcedure()) == Some(cs[6])
  {
    hide NextOk, NextCursor, TheQuery;
  }

  lemma QuerySpelled() returns (cs: seq<Cursor>)
    ensures |cs| == 31 && cs[30].token.EOS? && ProcedureEnd(QueryText(), QueryProcedure()) == Some(cs[30])
  {
    hide NextOk, NextCursor, QueryText, TitleEnd, ParamsEnd, BodyEnd, TrailEnd, SelectHeadEnd, FieldsEnd, Reads;
    hide TitleTokens, HeadRead, JoinRead, WhereRead, QueryBody;
    var src := QueryText();
    cs := QueryCursors();
    TitleSpelled(src, cs, QueryProcedure());
    ParamsSpelled(src, cs);
    HeadSpelled(src, cs);
    FromWhereSpelled(src, cs);
    HavingOrderSpelled(src, cs);
  }

  lemma QueryVarsNone()
    ensures QueryVars(TheQuery()) == []
  {
    assert JoinsVars(QueryFrom().joins[1..]) == [];
  }

  lemma QueryRuled()
    ensures QueryRule(TheQuery())
  {
    assert JoinsRule(QueryFrom().joins[1..]);
  }

  lemma QueryFits()
    ensures Fits(QueryProcedure())
  {
    hide TheQuery;
    QueryVarsNone();
  }

  // ---------------------------------------------------------------- its translation

  lemma NumberText(op: Token, number: string)
    requires op.EQ? || op.GT?
    ensures ChainText(NumberChain(op, number), Renamed) == (if op.EQ? then "c = " else "c > ") + number + " "
  {
    assert "" + "c" + ((if op.EQ? then " = " else " > ") + "" + number + "" + " ") + ""
        == (if op.EQ? then "c = " else "c > ") + number + " ";
  }

  lemma OnText()
    ensures ChainText(OnChain(), Renamed) == "c < d "
  {
    assert "" + "c" + (" < " + "" + "d" + "" + " ") + "" == "c < d ";
  }

  lemma ClauseRenders(text: string, op: Token, number: string, n: nat)
    requires op.EQ? || op.GT?
    ensures RenderAll(ClausePieces(text, Some(NumberChain(op, number)), map[], n, 1))
         == text + ((if op.EQ? then "c = " else "c > ") + number + " ")
  {
    hide RenderAll, NumberChain, ChainPieces, Translate, ChainText;
    var ch := NumberChain(op, number);
    NumberText(op, number);
    TranslationRenames(ch, map[], n, 1);
    RenderConcat([Word(text)], ChainPieces(Translate(ch, map[], n, 1)));
    RenderOne(Word(text));
  }

  lemma Renders3(a: Piece, b: Piece, c: Piece)
    ensures RenderAll([a, b, c]) == Render(a) + Render(b) + Render(c)
  {
    hide RenderAll, Render;
    RenderConcat([a, b], [c]);
    RenderConcat([a], [b]);
    RenderOne(a);
    RenderOne(b);
    RenderOne(c);
    assert [a] + [b] == [a, b] && [a, b] + [c] == [a, b, c];
  }

  lemma JoinHeadRenders()
    ensures RenderAll(JoinHeadPieces(QueryFrom().joins[0])) == "LEFT JOIN =u u ON ("
  {
    hide RenderAll, OnChain;
    var a, b, c := [Word("LEFT"), Word(" JOIN "), Word("=")], [Word("u"), Word(" "), Word("u")], [Word(" ON "), Open];
    assert JoinHeadPieces(QueryFrom().joins[0]) == a + b + c;
    Renders3(Word("LEFT"), Word(" JOIN "), Word("="));
    Renders3(Word("u"), Word(" "), Word("u"));
    RenderConcat([Word(" ON ")], [Open]);
    RenderOne(Word(" ON "));
    RenderOne(Open);
    assert [Word(" ON ")] + [Open] == c;
    RenderConcat(a, b);
    RenderConcat(a + b, c);
    assert ("LEFT" + " JOIN " + "=") + ("u" + " " + "u") + (" ON " + "(") == "LEFT JOIN =u u ON (";
  }

  lemma JoinRenders()
    ensures RenderAll(JoinsPieces(QueryFrom().joins, map[], 0, 1)) == "LEFT JOIN =u u ON (c < d ) "
  {
    hide RenderAll, OnChain, ChainPieces, Translate, ChainText, JoinHeadPieces;
    var j := QueryFrom().joins[0];
    var a, d, e := JoinHeadPieces(j), ChainPieces(Translate(OnChain(), map[], 0, 1)), [Close, Word(" ")];
    assert JoinsPieces(QueryFrom().joins[1..], map[], 0 + |ChainVars(j.on)|, 1) == [];
    assert JoinsPieces(QueryFrom().joins, map[], 0, 1) == JoinPieces(j, map[], 0, 1) + [];
    assert JoinPieces(j, map[], 0, 1) + [] == a + d + e;
    JoinHeadRenders();
    OnText();
    TranslationRenames(OnChain(), map[], 0, 1);
    RenderConcat([Close], [Word(" ")]);
    RenderOne(Close);
    RenderOne(Word(" "));
    assert [Close] + [Word(" ")] == e;
    RenderConcat(a, d);
    RenderConcat(a + d, e);
    assert "LEFT JOIN =u u ON (" + "c < d " + (")" + " ") == "LEFT JOIN =u u ON (c < d ) ";
  }

  lemma SelectRenders()
    ensures RenderAll(SelectHeadPieces(true)) == "SELECT DISTINCT "
    ensures RenderAll(FieldsPieces(TheQuery().items)) == "c "
    ensures RenderAll(TablesPieces(["t"])) == "=t t "
  {
    hide RenderAll, QueryBody, NumberChain;
    RenderConcat([Word("SELECT ")], [Word("DISTINCT ")]);
    RenderOne(Word("SELECT "));
    RenderOne(Word("DISTINCT "));
    assert [Word("SELECT ")] + [Word("DISTINCT ")] == SelectHeadPieces(true);
    RenderConcat([Word("c")], [Word(" ")]);
    RenderOne(Word("c"));
    RenderOne(Word(" "));
    TableIs();
    RenderConcat([Word("="), Word("t"), Word(" ")], [Word("t"), Word(" ")]);
    Renders3(Word("="), Word("t"), Word(" "));
    RenderConcat([Word("t")], [Word(" ")]);
    RenderOne(Word("t"));
    assert [Word("t")] + [Word(" ")] == [Word("t"), Word(" ")];
    assert [Word("="), Word("t"), Word(" ")] + [Word("t"), Word(" ")] == TablesPieces(["t"]);
  }

  lemma OrderRenders()
    ensures RenderAll(OrderPieces(TheQuery().order)) == " ORDER BY c ASC "
    ensures RenderAll(UnionPieces(None, map[], 1)) == " FOR BROWSE ACCESS "
  {
    hide RenderAll, QueryBody, NumberChain;
    var sort := [Word("c")] + [Word(" ASC ")];
    RenderConcat([Word(" ORDER BY ")], sort);
    RenderConcat([Word("c")], [Word(" ASC ")]);
    RenderOne(Word(" ORDER BY "));
    RenderOne(Word("c"));
    RenderOne(Word(" ASC "));
    RenderOne(Word(" FOR BROWSE ACCESS "));
    assert " ORDER BY " + ("c" + " ASC ") == " ORDER BY c ASC ";
    assert UnionPieces(None, map[], 1) == [Word(" FOR BROWSE ACCESS ")];
  }

  /** All that is written for it. */
  function QueryResult(): string {
    "SELECT DISTINCT " + "c " + "FROM " + "=t t " + "LEFT JOIN =u u ON (c < d ) "
    + " WHERE c = -1 " + " HAVING c > 1 " + " ORDER BY c ASC " + " FOR BROWSE ACCESS "
  }

  lemma QueryRenders()
    ensures RenderAll(StatementPieces(QueryProcedure().statement, map[])) == QueryResult()
  {
    hide RenderAll, NumberChain, SelectHeadPieces, FieldsPieces, TablesPieces, JoinsPieces, ClausePieces, OrderPieces;
    hide UnionPieces, QueryResult;
    var q, m, n := TheQuery(), |JoinsVars(QueryFrom().joins)|, |BodyVars(QueryBody())|;
    var s, f, t := SelectHeadPieces(true), FieldsPieces(q.items), TablesPieces(["t"]);
    var j, w := JoinsPieces(QueryFrom().joins, map[], 0, 1),
      ClausePieces(" WHERE ", QueryBody().where, map[], 0 + m, 1);
    var h, o, u := ClausePieces(" HAVING ", q.having, map[], n, 1), OrderPieces(q.order), UnionPieces(None, map[], 1);
    SelectRenders();
    JoinRenders();
    ClauseRenders(" WHERE ", EQ, "-1", 0 + m);
    ClauseRenders(" HAVING ", GT, "1", n);
    OrderRenders();
    RenderOne(Word("FROM "));
    RenderConcat(t, j);
    RenderConcat([Word("FROM ")], t + j);
    RenderConcat([Word("FROM ")] + (t + j), w);
    RenderConcat(h, o);
    var b := [Word("FROM ")] + (t + j) + w;
    RenderConcat(b, h + o);
    RenderConcat(f, b + (h + o));
    RenderConcat(f + (b + (h + o)), u);
    RenderConcat(s, (f + (b + (h + o))) + u);
    ResultParts("SELECT DISTINCT ", "c ", "FROM ", "=t t ", "LEFT JOIN =u u ON (c < d ) ", " WHERE c = -1 ",
                " HAVING c > 1 ", " ORDER BY c ASC ", " FOR BROWSE ACCESS ");
    assert QueryResult() == RenderAll(StatementPieces(QueryProcedure().statement, map[])) by {
      ResultIs();
    }
  }

  lemma ResultIs()
    ensures " WHERE " + ("c = " + "-1" + " ") == " WHERE c = -1 "
    ensures " HAVING " + ("c > " + "1" + " ") == " HAVING c > 1 "
    ensures QueryResult()
         == "SELECT DISTINCT " + "c " + "FROM " + "=t t " + "LEFT JOIN =u u ON (c < d ) "
            + " WHERE c = -1 " + " HAVING c > 1 " + " ORDER BY c ASC " + " FOR BROWSE ACCESS "
  {
  }

  lemma ResultParts(
    s: string, f: string, k: string, t: string, j: string, w: string, h: string, o: string, u: string)
    ensures s + ((f + ((k + (t + j) + w) + (h + o))) + u) == s + f + k + t + j + w + h + o + u
  {
  }

  /** An accepted SELECT and all that is written for it. */
  method QueryTranslated() returns (ok: bool, t: Translator)
    ensures t.src == QueryText() && ok
    ensures RenderAll(t.out) == QueryResult()
  {
    hide ProcedureEnd, Fits, StatementPieces, StatementHosts, Heads, Opens, Numbered, QueryRule, QueryText;
    hide Balance, NeverOverClosed, HostsOf, UnboundIn, AllStored, Named, Newlines, OneActivation, RenderAll;
    hide NextCursor, QueryResult;
    ghost var cs := QuerySpelled();
    QueryRuled();
    QueryFits();
    QueryRenders();
    assert LookupOf([]) == map[];
    var kind;
    ok, kind, t := TranslateProcedure(QueryText(), Some(QueryProcedure()));
  }
}
