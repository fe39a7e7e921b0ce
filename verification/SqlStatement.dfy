/**
  Whole statements: what the source text spells and what the translator writes for
  it, piece by piece.
 */
module SqlStatement {

  import opened Common
  import opened SqlLex
  import opened SqlOutput
  import opened SqlChain

  // ---------------------------------------------------------------- functions

  /** Past the token in hand, to one that has to be t. */
  function SkipTo(src: string, c: Cursor, t: Token): Option<Cursor> {
    if NextOk(src, c) && NextCursor(src, c).token == t then Some(NextCursor(src, c)) else None
  }

  /** Where the field of an aggregate begins. */
  function ArgumentAt(src: string, c: Cursor): Option<Cursor> {
    var a := SkipTo(src, c, LPAR);
    if a.None? then None else Skip(src, a.value)
  }

  /** From a function name to the token before its ')'.  A field is read past its
      end, so for an aggregate that token is the one after the field. */
  function ArgumentsEnd(src: string, c: Cursor): Option<Cursor> {
    if c.text == "GETDATE" then SkipTo(src, c, LPAR)
    else if c.text == "COUNT" then
      var a := SkipTo(src, c, LPAR);
      if a.None? then None else SkipTo(src, a.value, SPLAT)
    else if Aggregate(c.text) then
      var a := ArgumentAt(src, c);
      if a.None? then None else ReadField(src, a.value)
    else None
  }

  function ArgumentsPieces(src: string, c: Cursor): seq<Piece> {
    if c.text == "GETDATE" then [Word("CURRENT")]
    else if c.text == "COUNT" then [Word("COUNT"), Open, Word("*"), Close]
    else [Word(c.text), Open] + FieldPieces(src, ArgumentAt(src, c).GetOr(c)) + [Close]
  }

  function Capital(c: Cursor): Cursor {
    c.(text := Upper(c.text))
  }

  /** Past a function and its ')'; an aggregate needs one more token before it. */
  function FunctionEnd(src: string, c: Cursor): Option<Cursor> {
    if !c.token.FUNC? then None
    else
      var a := ArgumentsEnd(src, Capital(c));
      if a.None? then None
      else
        var r := SkipTo(src, a.value, RPAR);
        if r.None? then None else Skip(src, r.value)
  }

  function FunctionPieces(src: string, c: Cursor): seq<Piece> {
    ArgumentsPieces(src, Capital(c))
  }

  /** How a field is written. */
  function FieldText(src: string, c: Cursor): string {
    var d := NextCursor(src, c);
    if d.token.DOT? then c.text + "." + NextCursor(src, d).text else c.text
  }

  /** Capitals make no difference to what comes next. */
  lemma CapitalNext(src: string, c: Cursor)
    requires SkipTo(src, Capital(c), LPAR).Some?
    ensures NextCursor(src, Capital(c)) == NextCursor(src, c)
  {
    hide TokenAt;
  }

  lemma FieldRenders(src: string, c: Cursor)
    ensures RenderAll(FieldPieces(src, c)) == FieldText(src, c)
  {
    hide RenderAll, NextCursor;
    var d := NextCursor(src, c);
    NameRenders(if d.token.DOT? then Name(Some(c.text), NextCursor(src, d).text) else Name(None, c.text));
  }

  lemma AroundRenders(name: string, ps: seq<Piece>)
    ensures RenderAll([Word(name), Open] + ps + [Close]) == name + "(" + RenderAll(ps) + ")"
  {
    hide RenderAll;
    RenderConcat([Word(name), Open] + ps, [Close]);
    RenderConcat([Word(name), Open], ps);
    assert [Word(name)] + [Open] == [Word(name), Open];
    RenderConcat([Word(name)], [Open]);
    RenderOne(Word(name));
    RenderOne(Open);
    RenderOne(Close);
  }

  /** GETDATE becomes CURRENT. */
  lemma DateWritten(src: string, c: Cursor)
    requires FunctionEnd(src, c).Some? && Upper(c.text) == "GETDATE"
    ensures RenderAll(FunctionPieces(src, c)) == "CURRENT"
  {
    hide RenderAll, NextCursor, NextOk;
    RenderOne(Word("CURRENT"));
  }

  /** COUNT and the aggregates are written in capitals, with '*' or the field they have in
      parentheses. */
  lemma FunctionWritten(src: string, c: Cursor)
    requires FunctionEnd(src, c).Some? && Upper(c.text) != "GETDATE"
    ensures var name, a := Upper(c.text), NextCursor(src, c);
            var b := NextCursor(src, a);
            && c.token.FUNC? && a.token.LPAR? && name in {"COUNT", "AVG", "MAX", "MIN", "SUM"}
            && (if name == "COUNT" then b.token.SPLAT? else b.token.ID?)
            && RenderAll(FunctionPieces(src, c))
                 == name + "(" + (if name == "COUNT" then "*" else FieldText(src, b)) + ")"
  {
    hide RenderAll, NextCursor, NextOk, Upper, FieldPieces, FieldText;
    var name, a := Upper(c.text), NextCursor(src, c);
    var b := NextCursor(src, a);
    CapitalNext(src, c);
    FieldRenders(src, b);
    RenderOne(Word("*"));
    AroundRenders(name, if name == "COUNT" then [Word("*")] else FieldPieces(src, b));
    assert [Word("COUNT"), Open] + [Word("*")] + [Close] == [Word("COUNT"), Open, Word("*"), Close];
  }

  // ---------------------------------------------------------------- FROM

  /** INNER, LEFT or RIGHT JOIN table ON conditions. */
  datatype Joining = Joining(kind: Token, text: string, table: string, on: Chain<Operand>)

  datatype From = From(tables: seq<string>, joins: seq<Joining>)

  predicate JoinKind(t: Token) {
    t.INNER? || t.LEFT? || t.RIGHT?
  }

  /** Only defines are allowed, so '=' goes in front of a name without one. */
  function DefinePieces(t: string): seq<Piece> {
    (if t == "" || t[0] != '=' then [Word("=")] else []) + [Word(t)]
  }

  /** A define and the bare name as its alias. */
  function TablePieces(t: string): seq<Piece> {
    DefinePieces(t) + [Word(" "), Word(if t != "" && t[0] == '=' then t[1..] else t)]
  }

  /** Past a list of tables and the commas between them. */
  function TablesEnd(src: string, c: Cursor, ts: seq<string>): Option<Cursor>
    decreases |ts|
  {
    if ts == [] then None
    else
      var e := TakeText(src, c, ID, ts[0]);
      if e.None? then None
      else if |ts| == 1 then if e.value.token.COMMA? then None else e
      else
        var next := Take(src, e.value, COMMA);
        if next.None? then None else TablesEnd(src, next.value, ts[1..])
  }

  function TablesPieces(ts: seq<string>): seq<Piece> {
    if ts == [] then []
    else TablePieces(ts[0]) + [Word(" ")] + if |ts| == 1 then [] else [Word(",")] + TablesPieces(ts[1..])
  }

  lemma TablesStart(src: string, c: Cursor, ts: seq<string>)
    ensures TablesEnd(src, c, ts).Some? ==> c.token.ID? && ts != []
  {
    hide NextOk, NextCursor;
  }

  /** Up to the conditions of a join. */
  function JoinHeadEnd(src: string, c: Cursor, j: Joining): Option<Cursor> {
    if !JoinKind(j.kind) then None
    else
      var a := TakeText(src, c, j.kind, j.text);
      if a.None? then None
      else
        var b := Take(src, a.value, JOIN);
        if b.None? then None
        else
          var d := TakeText(src, b.value, ID, j.table);
          if d.None? then None else Take(src, d.value, ON)
  }

  function JoinHeadPieces(j: Joining): seq<Piece> {
    [Word(j.text), Word(" JOIN ")] + TablePieces(j.table) + [Word(" ON "), Open]
  }

  function JoinEnd(src: string, c: Cursor, j: Joining): Option<Cursor> {
    var e := JoinHeadEnd(src, c, j);
    if e.None? then None else ChainEnd(src, e.value, j.on, 0)
  }

  function JoinPieces(j: Joining, lookup: map<string, nat>, n: nat, act: nat): seq<Piece> {
    JoinHeadPieces(j) + ChainPieces(Translate(j.on, lookup, n, act)) + [Close, Word(" ")]
  }

  /** Past the joins; neither another join nor another table follows. */
  function JoinsEnd(src: string, c: Cursor, js: seq<Joining>): Option<Cursor>
    decreases |js|
  {
    if js == [] then if JoinKind(c.token) || c.token.ID? then None else Some(c)
    else
      var e := JoinEnd(src, c, js[0]);
      if e.None? then None else JoinsEnd(src, e.value, js[1..])
  }

  function JoinsVars(js: seq<Joining>): seq<string> {
    if js == [] then [] else ChainVars(js[0].on) + JoinsVars(js[1..])
  }

  function JoinsPieces(js: seq<Joining>, lookup: map<string, nat>, n: nat, act: nat): seq<Piece> {
    if js == [] then []
    else JoinPieces(js[0], lookup, n, act) + JoinsPieces(js[1..], lookup, n + |ChainVars(js[0].on)|, act)
  }

  /** The tables and the joins. */
  function SourcesEnd(src: string, c: Cursor, f: From): Option<Cursor> {
    var e := TablesEnd(src, c, f.tables);
    if e.None? then None else JoinsEnd(src, e.value, f.joins)
  }

  function FromEnd(src: string, c: Cursor, f: From): Option<Cursor> {
    var e := Take(src, c, FROM);
    if e.None? then None else SourcesEnd(src, e.value, f)
  }

  lemma FromStart(src: string, c: Cursor, f: From)
    requires FromEnd(src, c, f).Some?
    ensures c.token.FROM? && SkipTo(src, c, ID).Some? && f.tables != []
  {
    hide NextOk, NextCursor, JoinsEnd;
  }

  function FromPieces(f: From, lookup: map<string, nat>, n: nat, act: nat): seq<Piece> {
    [Word("FROM ")] + (TablesPieces(f.tables) + JoinsPieces(f.joins, lookup, n, act))
  }

  // ---------------------------------------------------------------- WHERE and HAVING

  /** A clause that is there or is not. */
  function ClauseEnd(src: string, c: Cursor, t: Token, w: Option<Chain<Operand>>): Option<Cursor> {
    if w.None? then if c.token == t then None else Some(c)
    else
      var e := Take(src, c, t);
      if e.None? then None else ChainEnd(src, e.value, w.value, 0)
  }

  function ClauseVars(w: Option<Chain<Operand>>): seq<string> {
    if w.None? then [] else ChainVars(w.value)
  }

  function ClausePieces(
    text: string, w: Option<Chain<Operand>>, lookup: map<string, nat>, n: nat, act: nat): seq<Piece>
  {
    if w.None? then [] else [Word(text)] + ChainPieces(Translate(w.value, lookup, n, act))
  }

  /** FROM and WHERE, which SELECT and DELETE share. */
  datatype Body = Body(from: From, where: Option<Chain<Operand>>)

  function BodyEnd(src: string, c: Cursor, b: Body): Option<Cursor> {
    var e := FromEnd(src, c, b.from);
    if e.None? then None else ClauseEnd(src, e.value, WHERE, b.where)
  }

  function BodyVars(b: Body): seq<string> {
    JoinsVars(b.from.joins) + ClauseVars(b.where)
  }

  function BodyPieces(b: Body, lookup: map<string, nat>, n: nat, act: nat): seq<Piece> {
    FromPieces(b.from, lookup, n, act) + ClausePieces(" WHERE ", b.where, lookup, n + |JoinsVars(b.from.joins)|, act)
  }

  lemma BodyAssoc(out: seq<Piece>, hosts: seq<Host>, b: Body, lookup: map<string, nat>, n: nat, act: nat)
    ensures var va, vb := JoinsVars(b.from.joins), ClauseVars(b.where);
            && (out + FromPieces(b.from, lookup, n, act)) + ClausePieces(" WHERE ", b.where, lookup, n + |va|, act)
                 == out + BodyPieces(b, lookup, n, act)
            && (hosts + HostsFor(va, lookup, n, act)) + HostsFor(vb, lookup, n + |va|, act)
                 == hosts + HostsFor(BodyVars(b), lookup, n, act)
            && |BodyVars(b)| == |va| + |vb|
  {
    hide FromPieces, ClausePieces, JoinsVars, ClauseVars, HostsFor;
    var va, vb := JoinsVars(b.from.joins), ClauseVars(b.where);
    Assoc(out, FromPieces(b.from, lookup, n, act), ClausePieces(" WHERE ", b.where, lookup, n + |va|, act));
    HostsForConcat(va, vb, lookup, n, act);
    Assoc(hosts, HostsFor(va, lookup, n, act), HostsFor(vb, lookup, n + |va|, act));
  }

  // ---------------------------------------------------------------- SELECT

  /** A field and the name AS gives it. */
  datatype Item = Item(name: Name, alias: Option<string>)

  /** A field to sort by; ASC or DESC when it says so. */
  datatype Sort = Sort(name: Name, direction: Option<Token>)

  /** `items` is empty for '*'. */
  datatype Query = Query(
    distinct: bool, items: seq<Item>, body: Body, having: Option<Chain<Operand>>, order: seq<Sort>,
    union: Option<Query>)

  function AliasEnd(src: string, c: Cursor, alias: Option<string>): Option<Cursor> {
    if alias.None? then if c.token.AS? then None else Some(c)
    else
      var e := Take(src, c, AS);
      if e.None? then None else TakeText(src, e.value, ID, alias.value)
  }

  function ItemEnd(src: string, c: Cursor, i: Item): Option<Cursor> {
    var e := NameEnd(src, c, i.name);
    if e.None? then None else AliasEnd(src, e.value, i.alias)
  }

  /** Past the select items; FROM follows. */
  function ItemsEnd(src: string, c: Cursor, items: seq<Item>): Option<Cursor>
    decreases |items|
  {
    if items == [] then None
    else
      var e := ItemEnd(src, c, items[0]);
      if e.None? then None
      else if |items| == 1 then if e.value.token.FROM? then e else None
      else
        var next := Take(src, e.value, COMMA);
        if next.None? then None else ItemsEnd(src, next.value, items[1..])
  }

  predicate StartsItem(t: Token) {
    t.ID? || t.FUNC? || t.STRLIT? || t.NUM? || t.CASE?
  }

  lemma ItemsStart(src: string, c: Cursor, items: seq<Item>)
    ensures ItemsEnd(src, c, items).Some? ==> c.token.ID? && items != []
  {
    hide NextOk, NextCursor;
  }

  function ItemsPieces(items: seq<Item>): seq<Piece> {
    if items == [] then []
    else if |items| == 1 then NamePieces(items[0].name) + [Word(" ")]
    else NamePieces(items[0].name) + [Word(", "), Word(" ")] + ItemsPieces(items[1..])
  }

  function FieldsEnd(src: string, c: Cursor, items: seq<Item>): Option<Cursor> {
    if items == [] then Take(src, c, SPLAT) else ItemsEnd(src, c, items)
  }

  function FieldsPieces(items: seq<Item>): seq<Piece> {
    if items == [] then [Word("* ")] else ItemsPieces(items)
  }

  function DirectionEnd(src: string, c: Cursor, d: Option<Token>): Option<Cursor> {
    if d.None? then if c.token.ASC? || c.token.DESC? then None else Some(c)
    else if d.value == ASC || d.value == DESC then Take(src, c, d.value)
    else None
  }

  function SortEnd(src: string, c: Cursor, s: Sort): Option<Cursor> {
    var e := NameEnd(src, c, s.name);
    if e.None? then None else DirectionEnd(src, e.value, s.direction)
  }

  /** DESC unless ASC is spelled out. */
  function SortPieces(s: Sort): seq<Piece> {
    NamePieces(s.name) + [Word(if s.direction == Some(ASC) then " ASC " else " DESC ")]
  }

  function SortsEnd(src: string, c: Cursor, ss: seq<Sort>): Option<Cursor>
    decreases |ss|
  {
    if ss == [] then None
    else
      var e := SortEnd(src, c, ss[0]);
      if e.None? then None
      else if |ss| == 1 then
        if e.value.token.COMMA? || e.value.token.ID? || e.value.token.FUNC? then None else e
      else
        var next := Take(src, e.value, COMMA);
        if next.None? then None else SortsEnd(src, next.value, ss[1..])
  }

  function SortsPieces(ss: seq<Sort>): seq<Piece> {
    if ss == [] then []
    else if |ss| == 1 then SortPieces(ss[0])
    else SortPieces(ss[0]) + [Word(",")] + SortsPieces(ss[1..])
  }

  lemma SortsStart(src: string, c: Cursor, ss: seq<Sort>)
    requires SortsEnd(src, c, ss).Some?
    ensures c.token.ID? && ss != []
  {
    hide NextOk, NextCursor, DirectionEnd;
  }

  /** ORDER BY. */
  function OrderHeadEnd(src: string, c: Cursor): Option<Cursor> {
    var e := Take(src, c, ORDER);
    if e.None? then None else Take(src, e.value, BY)
  }

  function OrderEnd(src: string, c: Cursor, ss: seq<Sort>): Option<Cursor> {
    if ss == [] then if c.token.ORDER? then None else Some(c)
    else
      var e := OrderHeadEnd(src, c);
      if e.None? then None else SortsEnd(src, e.value, ss)
  }

  function OrderPieces(ss: seq<Sort>): seq<Piece> {
    if ss == [] then [] else [Word(" ORDER BY ")] + SortsPieces(ss)
  }

  /** SELECT and DISTINCT. */
  function SelectHeadEnd(src: string, c: Cursor, distinct: bool): Option<Cursor> {
    var e := Take(src, c, SELECT);
    if e.None? then None
    else if distinct then Take(src, e.value, DISTINCT)
    else if e.value.token.DISTINCT? then None
    else e
  }

  function SelectHeadPieces(distinct: bool): seq<Piece> {
    if distinct then [Word("SELECT "), Word("DISTINCT ")] else [Word("SELECT ")]
  }

  /** HAVING and ORDER BY, with no GROUP BY before them. */
  function TrailEnd(src: string, c: Cursor, q: Query): Option<Cursor> {
    if c.token.GROUP? then None
    else
      var e := ClauseEnd(src, c, HAVING, q.having);
      if e.None? then None else OrderEnd(src, e.value, q.order)
  }

  function TrailPieces(q: Query, lookup: map<string, nat>, n: nat, act: nat): seq<Piece> {
    ClausePieces(" HAVING ", q.having, lookup, n, act) + OrderPieces(q.order)
  }

  /** FROM to ORDER BY. */
  function ClausesEnd(src: string, c: Cursor, q: Query): Option<Cursor> {
    var e := BodyEnd(src, c, q.body);
    if e.None? then None else TrailEnd(src, e.value, q)
  }

  function ClausesPieces(q: Query, lookup: map<string, nat>, act: nat): seq<Piece> {
    BodyPieces(q.body, lookup, 0, act) + TrailPieces(q, lookup, |BodyVars(q.body)|, act)
  }

  /** The variables of one SELECT, without those of a UNION. */
  function SelectVars(q: Query): seq<string> {
    BodyVars(q.body) + ClauseVars(q.having)
  }

  lemma ClausesAssoc(out: seq<Piece>, hosts: seq<Host>, q: Query, lookup: map<string, nat>, act: nat)
    ensures var va, vb := BodyVars(q.body), ClauseVars(q.having);
            && (out + BodyPieces(q.body, lookup, 0, act)) + TrailPieces(q, lookup, |va|, act)
                 == out + ClausesPieces(q, lookup, act)
            && (hosts + HostsFor(va, lookup, 0, act)) + HostsFor(vb, lookup, |va|, act)
                 == hosts + HostsFor(SelectVars(q), lookup, 0, act)
            && |SelectVars(q)| == |va| + |vb|
  {
    hide BodyPieces, TrailPieces, BodyVars, ClauseVars, HostsFor;
    var va, vb := BodyVars(q.body), ClauseVars(q.having);
    Assoc(out, BodyPieces(q.body, lookup, 0, act), TrailPieces(q, lookup, |va|, act));
    HostsForConcat(va, vb, lookup, 0, act);
    Assoc(hosts, HostsFor(va, lookup, 0, act), HostsFor(vb, lookup, |va|, act));
  }

  /** The fields and the clauses. */
  function SelectBodyEnd(src: string, c: Cursor, q: Query): Option<Cursor> {
    var e := FieldsEnd(src, c, q.items);
    if e.None? then None else ClausesEnd(src, e.value, q)
  }

  function SelectBodyPieces(q: Query, lookup: map<string, nat>, act: nat): seq<Piece> {
    FieldsPieces(q.items) + ClausesPieces(q, lookup, act)
  }

  function SelectEnd(src: string, c: Cursor, q: Query): Option<Cursor> {
    var e := SelectHeadEnd(src, c, q.distinct);
    if e.None? then None else SelectBodyEnd(src, e.value, q)
  }

  function UnionEnd(src: string, c: Cursor, u: Option<Query>): Option<Cursor>
    decreases u, 0
  {
    if u.None? then if c.token.UNION? then None else Some(c)
    else
      var e := Take(src, c, UNION);
      if e.None? then None else QueryEnd(src, e.value, u.value)
  }

  function QueryEnd(src: string, c: Cursor, q: Query): Option<Cursor>
    decreases q, 1
  {
    var e := SelectEnd(src, c, q);
    if e.None? then None else UnionEnd(src, e.value, q.union)
  }

  function UnionVars(u: Option<Query>): seq<string>
    decreases u, 0
  {
    if u.None? then [] else QueryVars(u.value)
  }

  function QueryVars(q: Query): seq<string>
    decreases q, 1
  {
    SelectVars(q) + UnionVars(q.union)
  }

  function UnionPieces(u: Option<Query>, lookup: map<string, nat>, act: nat): seq<Piece>
    decreases u, 0
  {
    [Word(" FOR BROWSE ACCESS ")] + if u.None? then [] else [Word(" UNION ")] + QueryPieces(u.value, lookup, act + 1)
  }

  /** The text of a query whose first SELECT is activation `act`; that of a UNION is
      the next one. */
  function QueryPieces(q: Query, lookup: map<string, nat>, act: nat): seq<Piece>
    decreases q, 1
  {
    SelectHeadPieces(q.distinct) + (SelectBodyPieces(q, lookup, act) + UnionPieces(q.union, lookup, act))
  }

  lemma UnionAssoc(out: seq<Piece>, u: Query, lookup: map<string, nat>, act: nat)
    ensures ((out + [Word(" FOR BROWSE ACCESS ")]) + [Word(" UNION ")]) + QueryPieces(u, lookup, act + 1)
         == out + UnionPieces(Some(u), lookup, act)
  {
    hide QueryPieces;
    var q := QueryPieces(u, lookup, act + 1);
    Assoc(out, [Word(" FOR BROWSE ACCESS ")], [Word(" UNION ")]);
    Assoc(out, [Word(" FOR BROWSE ACCESS ")] + [Word(" UNION ")], q);
    Assoc([Word(" FOR BROWSE ACCESS ")], [Word(" UNION ")], q);
  }

  function UnionHosts(u: Option<Query>, lookup: map<string, nat>, act: nat): seq<Host>
    decreases u, 0
  {
    if u.None? then [] else QueryHosts(u.value, lookup, act + 1)
  }

  /** Its placeholders: each SELECT counts from 0. */
  function QueryHosts(q: Query, lookup: map<string, nat>, act: nat): seq<Host>
    decreases q, 1
  {
    HostsFor(SelectVars(q), lookup, 0, act) + UnionHosts(q.union, lookup, act)
  }

  lemma QueryAssoc(out: seq<Piece>, hosts: seq<Host>, q: Query, lookup: map<string, nat>, act: nat)
    ensures ((out + SelectHeadPieces(q.distinct)) + SelectBodyPieces(q, lookup, act))
              + UnionPieces(q.union, lookup, act)
         == out + QueryPieces(q, lookup, act)
    ensures (hosts + HostsFor(SelectVars(q), lookup, 0, act)) + UnionHosts(q.union, lookup, act)
         == hosts + QueryHosts(q, lookup, act)
  {
    hide SelectHeadPieces, SelectBodyPieces, UnionPieces, HostsFor, UnionHosts;
    var a, b, c := SelectHeadPieces(q.distinct), SelectBodyPieces(q, lookup, act), UnionPieces(q.union, lookup, act);
    Assoc(out + a, b, c);
    Assoc(out, a, b + c);
    Assoc(hosts, HostsFor(SelectVars(q), lookup, 0, act), UnionHosts(q.union, lookup, act));
  }

  // ---------------------------------------------------------------- INSERT and UPDATE

  /** INSERT INTO table (columns) VALUES (values); the tokenizer sees the table as a
      function name. */
  datatype Insertion = Insertion(table: string, columns: seq<string>, values: seq<Value>)

  function InsertHeadEnd(src: string, c: Cursor, table: string): Option<Cursor> {
    var a := Take(src, c, INSERT);
    if a.None? then None
    else
      var b := Take(src, a.value, INTO);
      if b.None? then None
      else
        var d := TakeText(src, b.value, FUNC, table);
        if d.None? then None else Take(src, d.value, LPAR)
  }

  function InsertHeadPieces(table: string): seq<Piece> {
    [Word(" INSERT INTO ")] + DefinePieces(table) + [Open]
  }

  function ColumnsEnd(src: string, c: Cursor, cs: seq<string>): Option<Cursor>
    decreases |cs|
  {
    if cs == [] then None
    else
      var e := TakeText(src, c, ID, cs[0]);
      if e.None? then None
      else if |cs| == 1 then if e.value.token.COMMA? || e.value.token.ID? then None else e
      else
        var next := Take(src, e.value, COMMA);
        if next.None? then None else ColumnsEnd(src, next.value, cs[1..])
  }

  lemma ColumnsStart(src: string, c: Cursor, cs: seq<string>)
    ensures ColumnsEnd(src, c, cs).Some? ==> c.token.ID? && cs != []
  {
    hide NextOk, NextCursor;
  }

  function ColumnsPieces(cs: seq<string>): seq<Piece> {
    if cs == [] then []
    else if |cs| == 1 then [Word(cs[0])]
    else [Word(cs[0]), Word(",")] + ColumnsPieces(cs[1..])
  }

  function ValuesHeadEnd(src: string, c: Cursor): Option<Cursor> {
    var a := Take(src, c, RPAR);
    if a.None? then None
    else
      var b := Take(src, a.value, VALUES);
      if b.None? then None else Take(src, b.value, LPAR)
  }

  predicate StartsValue(t: Token) {
    t.FUNC? || t.NUM? || t.ID? || t.VAR? || t.STRLIT?
  }

  function ValuesEnd(src: string, c: Cursor, vs: seq<Value>): Option<Cursor>
    decreases |vs|
  {
    if vs == [] then None
    else
      var e := ValueEnd(src, c, vs[0]);
      if e.None? then None
      else if |vs| == 1 then if e.value.token.COMMA? || StartsValue(e.value.token) then None else e
      else
        var next := Take(src, e.value, COMMA);
        if next.None? then None else ValuesEnd(src, next.value, vs[1..])
  }

  lemma ValuesStart(src: string, c: Cursor, vs: seq<Value>)
    ensures ValuesEnd(src, c, vs).Some? ==> StartsValue(c.token) && vs != []
  {
    hide NextOk, NextCursor;
  }

  /** ") VALUES (" and the values with their ')'. */
  function InsertTailEnd(src: string, c: Cursor, vs: seq<Value>): Option<Cursor> {
    var a := ValuesHeadEnd(src, c);
    if a.None? then None
    else
      var b := ValuesEnd(src, a.value, vs);
      if b.None? then None else Take(src, b.value, RPAR)
  }

  function InsertEnd(src: string, c: Cursor, i: Insertion): Option<Cursor> {
    var a := InsertHeadEnd(src, c, i.table);
    if a.None? then None
    else
      var b := ColumnsEnd(src, a.value, i.columns);
      if b.None? then None else InsertTailEnd(src, b.value, i.values)
  }

  function InsertTailPieces(vs: seq<Value>): seq<Piece> {
    [Close, Word(" VALUES "), Open] + (ValuesPieces(vs) + [Close])
  }

  function InsertPieces(i: Insertion): seq<Piece> {
    InsertHeadPieces(i.table) + (ColumnsPieces(i.columns) + InsertTailPieces(i.values))
  }

  datatype Setting = Setting(name: Name, value: Value)

  datatype Updating = Updating(table: string, settings: seq<Setting>, where: Option<Chain<Operand>>)

  function SettingEnd(src: string, c: Cursor, s: Setting): Option<Cursor> {
    var a := NameEnd(src, c, s.name);
    if a.None? || s.value.Ident? then None
    else
      var b := Take(src, a.value, EQ);
      if b.None? then None else ValueEnd(src, b.value, s.value)
  }

  function SettingPieces(s: Setting): seq<Piece> {
    NamePieces(s.name) + [Word(" = "), ValuePiece(s.value), Word(" ")]
  }

  function SettingsEnd(src: string, c: Cursor, ss: seq<Setting>): Option<Cursor>
    decreases |ss|
  {
    if ss == [] then None
    else
      var e := SettingEnd(src, c, ss[0]);
      if e.None? then None
      else if |ss| == 1 then if e.value.token.COMMA? || e.value.token.ID? then None else e
      else
        var next := Take(src, e.value, COMMA);
        if next.None? then None else SettingsEnd(src, next.value, ss[1..])
  }

  lemma SettingsStart(src: string, c: Cursor, ss: seq<Setting>)
    ensures SettingsEnd(src, c, ss).Some? ==> c.token.ID? && ss != []
  {
    hide NextOk, NextCursor, ValueEnd;
  }

  lemma SettingAssoc(out: seq<Piece>, s: Setting)
    ensures ((out + (NamePieces(s.name) + [Word(" = ")])) + [ValuePiece(s.value)]) + [Word(" ")]
              == out + SettingPieces(s)
  {
    hide NamePieces, ValuePiece;
  }

  function SettingsPieces(ss: seq<Setting>): seq<Piece> {
    if ss == [] then []
    else if |ss| == 1 then SettingPieces(ss[0])
    else SettingPieces(ss[0]) + [Word(",")] + SettingsPieces(ss[1..])
  }

  function UpdateHeadEnd(src: string, c: Cursor, table: string): Option<Cursor> {
    var a := Take(src, c, UPDATE);
    if a.None? then None
    else
      var b := TakeText(src, a.value, ID, table);
      if b.None? then None else Take(src, b.value, SET)
  }

  lemma UpdateHeadParts(src: string, c: Cursor, table: string)
    requires UpdateHeadEnd(src, c, table).Some?
    ensures var t := SkipTo(src, c, ID);
            && c.token.UPDATE? && t.Some? && t.value.text == table
            && var r := SkipTo(src, t.value, SET);
               r.Some? && NextOk(src, r.value) && UpdateHeadEnd(src, c, table) == Skip(src, r.value)
  {
    hide NextOk, NextCursor;
  }

  function UpdateHeadPieces(table: string): seq<Piece> {
    [Word("UPDATE ")] + DefinePieces(table) + [Word(" SET ")]
  }

  function UpdateTailEnd(src: string, c: Cursor, u: Updating): Option<Cursor> {
    var e := SettingsEnd(src, c, u.settings);
    if e.None? then None else ClauseEnd(src, e.value, WHERE, u.where)
  }

  function UpdateEnd(src: string, c: Cursor, u: Updating): Option<Cursor> {
    var e := UpdateHeadEnd(src, c, u.table);
    if e.None? then None else UpdateTailEnd(src, e.value, u)
  }

  function UpdateTailPieces(u: Updating, lookup: map<string, nat>, act: nat): seq<Piece> {
    SettingsPieces(u.settings) + ClausePieces(" WHERE ", u.where, lookup, 0, act)
  }

  // ---------------------------------------------------------------- statements

  datatype Statement =
    | Select(query: Query)
    | Delete(body: Body)
    | Update(update: Updating)
    | Insert(insertion: Insertion)

  function DeleteEnd(src: string, c: Cursor, b: Body): Option<Cursor> {
    var e := Take(src, c, DELETE);
    if e.None? then None else BodyEnd(src, e.value, b)
  }

  function StatementEnd(src: string, c: Cursor, s: Statement): Option<Cursor> {
    match s
    case Select(q) => QueryEnd(src, c, q)
    case Delete(b) => DeleteEnd(src, c, b)
    case Update(u) => UpdateEnd(src, c, u)
    case Insert(i) => InsertEnd(src, c, i)
  }

  /** The token a statement begins with. */
  function KindOf(s: Statement): Token {
    match s
    case Select(_) => SELECT
    case Delete(_) => DELETE
    case Update(_) => UPDATE
    case Insert(_) => INSERT
  }

  lemma StatementStart(src: string, c: Cursor, s: Statement)
    requires StatementEnd(src, c, s).Some?
    ensures c.token == KindOf(s)
  {
    hide NextOk, NextCursor, SelectBodyEnd, UnionEnd, BodyEnd, UpdateTailEnd, ColumnsEnd, InsertTailEnd;
  }

  /** The variables that become placeholders with an index. */
  function StatementVars(s: Statement): seq<string> {
    match s
    case Select(q) => QueryVars(q)
    case Delete(b) => BodyVars(b)
    case Update(u) => ClauseVars(u.where)
    case Insert(_) => []
  }

  /** The text of a statement: a SELECT is activation 1, any other is 0. */
  function StatementPieces(s: Statement, lookup: map<string, nat>): seq<Piece> {
    match s
    case Select(q) => QueryPieces(q, lookup, 1)
    case Delete(b) => [Word("DELETE ")] + BodyPieces(b, lookup, 0, 0)
    case Update(u) => UpdateHeadPieces(u.table) + UpdateTailPieces(u, lookup, 0)
    case Insert(i) => InsertPieces(i)
  }

  function StatementHosts(s: Statement, lookup: map<string, nat>): seq<Host> {
    match s
    case Select(q) => QueryHosts(q, lookup, 1)
    case Delete(b) => HostsFor(BodyVars(b), lookup, 0, 0)
    case Update(u) => HostsFor(ClauseVars(u.where), lookup, 0, 0)
    case Insert(_) => []
  }

  // ---------------------------------------------------------------- what is accepted

  predicate ClauseRule(w: Option<Chain<Operand>>) {
    w.Some? ==> ChainRule(w.value, false, 0)
  }

  predicate JoinsRule(js: seq<Joining>) {
    js == [] || (ChainRule(js[0].on, false, 0) && JoinsRule(js[1..]))
  }

  predicate BodyRule(b: Body) {
    JoinsRule(b.from.joins) && ClauseRule(b.where)
  }

  predicate SelectRule(q: Query) {
    BodyRule(q.body) && ClauseRule(q.having)
  }

  predicate UnionRule(u: Option<Query>)
    decreases u, 0
  {
    u.Some? ==> QueryRule(u.value)
  }

  predicate QueryRule(q: Query)
    decreases q, 1
  {
    SelectRule(q) && UnionRule(q.union)
  }

  /** A spelled statement is accepted exactly when all of its condition chains are. */
  predicate StatementRule(s: Statement) {
    match s
    case Select(q) => QueryRule(q)
    case Delete(b) => BodyRule(b)
    case Update(u) => ClauseRule(u.where)
    case Insert(_) => true
  }

  // ---------------------------------------------------------------- procedures

  /** INT, SMALLINT or BIGINT, or CHAR with its length. */
  datatype Type = Plain(token: Token) | Chars(length: string)

  datatype Declaration = Declaration(name: string, typ: Type)

  /** `parens` when the parameters stand in parentheses. */
  datatype Procedure = Procedure(
    system: string, name: string, parens: bool, params: seq<Declaration>, statement: Statement)

  const INITIAL := Cursor(SEMI, "", 0)

  /** CREATE PROCEDURE, up to the system name. */
  function SystemAt(src: string, c: Cursor): Option<Cursor> {
    var a := SkipTo(src, c, CREATE);
    if a.None? then None
    else
      var b := SkipTo(src, a.value, PROC);
      if b.None? then None else SkipTo(src, b.value, ID)
  }

  /** CREATE PROCEDURE system.name, up to the name. */
  function TitleEnd(src: string, c: Cursor, p: Procedure): Option<Cursor> {
    var a := SystemAt(src, c);
    if a.None? || a.value.text != p.system then None
    else
      var b := SkipTo(src, a.value, DOT);
      if b.None? then None
      else
        var d := Skip(src, b.value);
        if d.None? || d.value.text != p.name || !(d.value.token.ID? || d.value.token.FUNC?) then None else d
  }

  /** Past a type. */
  function TypeEnd(src: string, c: Cursor, t: Type): Option<Cursor> {
    match t
    case Plain(token) =>
      if token.INT? || token.SMALLINT? || token.BIGINT? then Take(src, c, token) else None
    case Chars(length) =>
      var a := Take(src, c, CHAR);
      if a.None? then None
      else
        var b := Take(src, a.value, LPAR);
        if b.None? then None
        else
          var d := TakeText(src, b.value, NUM, length);
          if d.None? then None else Take(src, d.value, RPAR)
  }

  function DeclarationEnd(src: string, c: Cursor, d: Declaration): Option<Cursor> {
    var e := TakeText(src, c, VAR, d.name);
    if e.None? then None else TypeEnd(src, e.value, d.typ)
  }

  /** Past the declarations, a comma behind any of them. */
  function DeclarationsEnd(src: string, c: Cursor, ds: seq<Declaration>): Option<Cursor>
    decreases |ds|
  {
    if ds == [] then if c.token.VAR? then None else Some(c)
    else
      var e := DeclarationEnd(src, c, ds[0]);
      if e.None? then None
      else if e.value.token.COMMA? then
        var next := Take(src, e.value, COMMA);
        if next.None? then None else DeclarationsEnd(src, next.value, ds[1..])
      else DeclarationsEnd(src, e.value, ds[1..])
  }

  lemma DeclarationsStart(src: string, c: Cursor, ds: seq<Declaration>)
    requires DeclarationsEnd(src, c, ds).Some?
    ensures ds != [] <==> c.token.VAR?
  {
    hide NextOk, NextCursor, TypeEnd;
  }

  /** From the name to the first token of the statement. */
  function ParamsEnd(src: string, c: Cursor, p: Procedure): Option<Cursor> {
    var a := Skip(src, c);
    if a.None? || (a.value.token.LPAR?) != p.parens then None
    else
      var b := OpenEnd(src, a.value, p.parens);
      if b.None? then None
      else
        var d := DeclarationsEnd(src, b.value, p.params);
        if d.None? then None
        else
          var e := if p.parens then Take(src, d.value, RPAR) else d;
          if e.None? then None else Take(src, e.value, AS)
  }

  /** From the name to the end of the statement. */
  function RestEnd(src: string, c: Cursor, p: Procedure): Option<Cursor> {
    var b := ParamsEnd(src, c, p);
    if b.None? then None else StatementEnd(src, b.value, p.statement)
  }

  /** From the beginning of the text to the end of the statement. */
  function ProcedureEnd(src: string, p: Procedure): Option<Cursor> {
    var a := TitleEnd(src, INITIAL, p);
    if a.None? then None else RestEnd(src, a.value, p)
  }

  /** The text spells the procedure, whatever comes behind it. */
  predicate SpellsProcedure(src: string, p: Procedure) {
    ProcedureEnd(src, p).Some?
  }

  /** Nothing, or a ';' and nothing, is left to read. */
  predicate Finished(src: string, c: Cursor) {
    (if c.token.SEMI? then NextCursor(src, c) else c).token.EOS?
  }

  /** Every variable of the statement is declared and used at most ten times. */
  predicate Fits(p: Procedure) {
    Room(StatementVars(p.statement), LookupOf(p.params), [])
  }

  /** A spelled procedure is accepted. */
  predicate Accepted(src: string, p: Procedure)
    requires SpellsProcedure(src, p)
  {
    Finished(src, ProcedureEnd(src, p).value) && StatementRule(p.statement) && Fits(p)
  }

  /** The parameters as declared, every slot free, and where to find each by name. */
  function Declared(ds: seq<Declaration>): seq<Param> {
    seq(|ds|, k requires 0 <= k < |ds| => Param(ds[k].name, Free(PRMIDXLEN), false))
  }

  function LookupOf(ds: seq<Declaration>): map<string, nat> {
    if ds == [] then map[] else LookupOf(ds[..|ds| - 1])[ds[|ds| - 1].name := |ds| - 1]
  }

  lemma DeclaredNext(ds: seq<Declaration>, k: nat)
    requires k < |ds|
    ensures Declared(ds[..k + 1]) == Declared(ds[..k]) + [Param(ds[k].name, Free(PRMIDXLEN), false)]
    ensures LookupOf(ds[..k + 1]) == LookupOf(ds[..k])[ds[k].name := k]
  {
    assert ds[..k + 1][..k] == ds[..k];
  }
}
