/**
  What is written for a SELECT can be read in one way only: its pieces determine the
  statement, but for the names AS gives its fields.
 */
module SqlStatementBack {

  import opened Common
  import opened SqlLex
  import opened SqlOutput
  import opened SqlChain
  import opened SqlStatement
  import opened SqlSpelling
  import opened SqlReadBack

  // ---------------------------------------------------------------- what may follow

  /** A word with a blank in front comes next. */
  predicate Blankly(x: seq<Piece>) {
    x != [] && x[0].Word? && x[0].text != "" && x[0].text[0] == ' '
  }

  predicate JoinWord(p: Piece) {
    p.Word? && Upper(p.text) in {"INNER", "LEFT", "RIGHT"}
  }

  /** Behind the conditions of a join, another join or a word like those may follow. */
  predicate Follows(on: bool, x: seq<Piece>) {
    Blankly(x) || (on && x != [] && JoinWord(x[0]))
  }

  function TailPieces(on: bool): seq<Piece> {
    if on then [Close, Word(" ")] else []
  }

  /** What stands behind the first condition of a chain that x follows. */
  function AfterFirst(ch: Chain<Target>, on: bool, x: seq<Piece>): seq<Piece> {
    LinkedPieces(ch) + (TailPieces(on) + x)
  }

  lemma AfterStarts(ch: Chain<Target>, on: bool, x: seq<Piece>)
    requires Proper(ch) && Follows(on, x)
    ensures var u := AfterFirst(ch, on, x);
            && u != []
            && (ch.Last? && on ==> u == [Close, Word(" ")] + x)
            && (ch.Last? && !on ==> u == x)
            && (ch.Join? && ch.link.Conj? ==>
                  u == [Word(ch.link.text), Word(" ")] + (ChainPieces(ch.rest) + (TailPieces(on) + x)))
            && (ch.Join? && ch.link.Bare? ==> u == ChainPieces(ch.rest) + (TailPieces(on) + x))
            && (ch.Join? ==> !u[0].Close?)
  {
    hide CondPieces;
    if ch.Join? {
      ChainSplit(ch.rest);
      Assoc(LinkPieces(ch.link), ChainPieces(ch.rest), TailPieces(on) + x);
    }
  }

  /** A condition begins with '(' or a name. */
  lemma ChainStarts(ch: Chain<Target>, x: seq<Piece>)
    requires Proper(ch)
    ensures var ps := ChainPieces(ch) + x;
            ps != [] && (ps[0].Open? || (ps[0].Word? && Identifier(ps[0].text)))
  {
    hide SaidPieces, ClosePieces, LinkPieces, ProperTest, Identifier;
    CondSplit(ch.cond, []);
    assert CondPieces(ch.cond) + [] == CondPieces(ch.cond);
    ChainSplit(ch);
    assert !ch.cond.open
      ==> (NamePieces(ch.cond.column) + SaidPieces(ch.cond.test))[0] == Word(FirstOf(ch.cond.column));
  }

  /** AND and OR are told from what may follow. */
  lemma ConjFollows(text: string, conj: bool, on: bool, x: seq<Piece>)
    requires Upper(text) == (if conj then "AND" else "OR") && Follows(on, x)
    ensures x[0] != Word(text)
  {
    assert Upper(text)[0] == ToUpper(text[0]) != ' ';
  }

  /** The ')' of the last comparison is told from that of the join. */
  lemma ClosesAgree(a: Chain<Target>, b: Chain<Target>, on: bool, x: seq<Piece>, y: seq<Piece>)
    requires Proper(a) && Proper(b) && Follows(on, x) && Follows(on, y) && a.cond.test == b.cond.test
    requires ClosePieces(a.cond.close) + AfterFirst(a, on, x) == ClosePieces(b.cond.close) + AfterFirst(b, on, y)
    ensures !(a.cond.close && !b.cond.close)
  {
    hide AfterFirst, Proper, Follows;
    if a.cond.close && !b.cond.close {
      var u, v := AfterFirst(a, on, x), AfterFirst(b, on, y);
      assert v == [Close, Word(" ")] + u;
      AfterStarts(a, on, x);
      AfterStarts(b, on, y);
      FollowsNoClose(on, y);
      assert b.Last? && on;
      Cancel([Close, Word(" ")], [Close, Word(" ")], y, u);
      CompareLink(a);
      if a.Join? {
        ConjFollows(a.link.text, a.link.conj, on, y);
      }
    }
  }

  lemma FollowsNoClose(on: bool, x: seq<Piece>)
    requires Follows(on, x)
    ensures x != [] && !x[0].Close?
  {
  }

  lemma CompareLink(a: Chain<Target>)
    requires Proper(a) && a.cond.close
    ensures a.Join? ==> a.link.Conj? && Upper(a.link.text) == if a.link.conj then "AND" else "OR"
  {
  }

  lemma LinkKinds(a: Chain<Target>)
    requires Proper(a) && a.Join?
    ensures Proper(a.rest) && (a.link.Bare? <==> a.cond.test.Member?)
    ensures a.link.Conj? ==> Upper(a.link.text) == if a.link.conj then "AND" else "OR"
  {
  }

  /** A chain that ends is told from one that goes on. */
  lemma LastsAgree(a: Chain<Target>, b: Chain<Target>, on: bool, x: seq<Piece>, y: seq<Piece>)
    requires Proper(a) && Proper(b) && Follows(on, x) && Follows(on, y)
    requires AfterFirst(a, on, x) == AfterFirst(b, on, y)
    ensures !(a.Last? && b.Join?)
  {
    hide AfterFirst, Proper, Follows;
    if a.Last? && b.Join? {
      AfterStarts(a, on, x);
      AfterStarts(b, on, y);
      LinkKinds(b);
      if b.link.Conj? {
        ConjFollows(b.link.text, b.link.conj, on, x);
      } else {
        ChainStarts(b.rest, TailPieces(on) + y);
        FollowsBlankly(x, on);
      }
    }
  }

  lemma FollowsBlankly(x: seq<Piece>, on: bool)
    requires Follows(on, x)
    ensures !on ==> x != [] && x[0].Word? && !Identifier(x[0].text)
  {
  }

  /** Chains that the same pieces begin with are the same, and so is what follows. */
  lemma {:induction false} ChainPrefix(a: Chain<Target>, b: Chain<Target>, on: bool, x: seq<Piece>, y: seq<Piece>)
    requires Proper(a) && Proper(b) && Follows(on, x) && Follows(on, y)
    requires ChainPieces(a) + (TailPieces(on) + x) == ChainPieces(b) + (TailPieces(on) + y)
    ensures a == b && x == y
    decreases a
  {
    hide AfterFirst, Proper, Follows, ChainPieces, CondPieces, ClosePieces, LinkedPieces;
    var u, v := AfterFirst(a, on, x), AfterFirst(b, on, y);
    FirstApart(a, on, x);
    FirstApart(b, on, y);
    TestsDetermined(a.cond, b.cond, u, v);
    ClosesAgree(a, b, on, x, y);
    ClosesAgree(b, a, on, y, x);
    Cancel(ClosePieces(a.cond.close), ClosePieces(b.cond.close), u, v);
    LastsAgree(a, b, on, x, y);
    LastsAgree(b, a, on, y, x);
    AfterStarts(a, on, x);
    AfterStarts(b, on, y);
    if a.Last? {
      if on {
        Cancel([Close, Word(" ")], [Close, Word(" ")], x, y);
      }
    } else {
      LinkKinds(a);
      LinkKinds(b);
      if a.link.Conj? {
        assert u[0] == Word(a.link.text) == Word(b.link.text);
        Cancel([Word(a.link.text), Word(" ")], [Word(b.link.text), Word(" ")],
               ChainPieces(a.rest) + (TailPieces(on) + x), ChainPieces(b.rest) + (TailPieces(on) + y));
      }
      ChainPrefix(a.rest, b.rest, on, x, y);
    }
  }

  lemma FirstApart(a: Chain<Target>, on: bool, x: seq<Piece>)
    requires Proper(a)
    ensures ProperCond(a.cond)
    ensures ChainPieces(a) + (TailPieces(on) + x) == CondPieces(a.cond) + AfterFirst(a, on, x)
  {
    hide CondPieces, LinkedPieces, ProperCond, ChainPieces;
    ChainSplit(a);
    Assoc(CondPieces(a.cond), LinkedPieces(a), TailPieces(on) + x);
  }

  // ---------------------------------------------------------------- variables

  /** A chain of a source text: its translation is proper, its variables have a '@'. */
  predicate Spoken(ch: Chain<Operand>) {
    Proper(Translate(ch, map[], 0, 0)) && forall k :: 0 <= k < |ChainVars(ch)| ==> AtName(ChainVars(ch)[k])
  }

  /** Where the placeholders are numbered from makes no difference. */
  lemma {:induction false} ProperAnywhere(
      ch: Chain<Operand>, l: map<string, nat>, m: nat, a: nat, lookup: map<string, nat>, n: nat, act: nat)
    requires Proper(Translate(ch, l, m, a))
    ensures Proper(Translate(ch, lookup, n, act))
    decreases ch
  {
    hide Identifier, ProperValues, Numeral;
    if ch.Join? {
      var i := |TestVars(ch.cond.test)|;
      ProperAnywhere(ch.rest, l, m + i, a, lookup, n + i, act);
    }
  }

  lemma OperandsAgree(o: Operand, p: Operand, lookup: map<string, nat>, n: nat, act: nat)
    requires TranslateOperand(o, lookup, n, act) == TranslateOperand(p, lookup, n, act)
    requires (o.Variable? ==> AtName(o.name)) && (p.Variable? ==> AtName(p.name))
    ensures o == p
  {
    if o.Variable? {
      assert o.name == "@" + VarName(o.name) && p.name == "@" + VarName(p.name);
    }
  }

  /** The translation determines the chain. */
  lemma {:induction false} TranslateDetermined(
    a: Chain<Operand>, b: Chain<Operand>, lookup: map<string, nat>, n: nat, act: nat)
    requires Translate(a, lookup, n, act) == Translate(b, lookup, n, act)
    requires forall k :: 0 <= k < |ChainVars(a)| ==> AtName(ChainVars(a)[k])
    requires forall k :: 0 <= k < |ChainVars(b)| ==> AtName(ChainVars(b)[k])
    ensures a == b
    decreases a
  {
    hide AtName, TranslateOperand;
    FirstVars(a);
    FirstVars(b);
    if a.cond.test.Compare? {
      OperandsAgree(a.cond.test.operand, b.cond.test.operand, lookup, n, act);
    }
    if a.Join? {
      TranslateDetermined(a.rest, b.rest, lookup, n + |TestVars(a.cond.test)|, act);
    }
  }

  lemma FirstVars(a: Chain<Operand>)
    requires forall k :: 0 <= k < |ChainVars(a)| ==> AtName(ChainVars(a)[k])
    ensures a.cond.test.Compare? && a.cond.test.operand.Variable? ==> AtName(a.cond.test.operand.name)
    ensures a.Join? ==> forall k :: 0 <= k < |ChainVars(a.rest)| ==> AtName(ChainVars(a.rest)[k])
  {
    hide AtName;
    var vs := TestVars(a.cond.test);
    assert vs != [] ==> ChainVars(a)[0] == vs[0];
    if a.Join? {
      assert forall k :: 0 <= k < |ChainVars(a.rest)| ==> ChainVars(a)[|vs| + k] == ChainVars(a.rest)[k];
    }
  }

  lemma SpokenPrefix(
    a: Chain<Operand>, b: Chain<Operand>, lookup: map<string, nat>, n: nat, act: nat, on: bool,
    x: seq<Piece>, y: seq<Piece>)
    requires Spoken(a) && Spoken(b) && Follows(on, x) && Follows(on, y)
    requires ChainPieces(Translate(a, lookup, n, act)) + (TailPieces(on) + x)
          == ChainPieces(Translate(b, lookup, n, act)) + (TailPieces(on) + y)
    ensures a == b && x == y
  {
    hide Proper, Translate, ChainPieces, Follows, ChainVars, AtName;
    ProperAnywhere(a, map[], 0, 0, lookup, n, act);
    ProperAnywhere(b, map[], 0, 0, lookup, n, act);
    ChainPrefix(Translate(a, lookup, n, act), Translate(b, lookup, n, act), on, x, y);
    TranslateDetermined(a, b, lookup, n, act);
  }

  // ---------------------------------------------------------------- WHERE and HAVING

  predicate SpokenClause(w: Option<Chain<Operand>>) {
    w.Some? ==> Spoken(w.value)
  }

  /** Another word than that of the clause comes next. */
  predicate Beyond(text: string, x: seq<Piece>) {
    Blankly(x) && x[0] != Word(text)
  }

  lemma ClauseDetermined(
    text: string, v: Option<Chain<Operand>>, w: Option<Chain<Operand>>, lookup: map<string, nat>, n: nat, act: nat,
    x: seq<Piece>, y: seq<Piece>)
    requires SpokenClause(v) && SpokenClause(w) && Beyond(text, x) && Beyond(text, y)
    requires ClausePieces(text, v, lookup, n, act) + x == ClausePieces(text, w, lookup, n, act) + y
    ensures v == w && x == y
  {
    hide Spoken, ChainPieces, Translate;
    ClauseSplit(text, v, lookup, n, act, x);
    ClauseSplit(text, w, lookup, n, act, y);
    if v.Some? && w.Some? {
      var a, b := ChainPieces(Translate(v.value, lookup, n, act)), ChainPieces(Translate(w.value, lookup, n, act));
      Cancel([Word(text)], [Word(text)], a + x, b + y);
      assert TailPieces(false) + x == x && TailPieces(false) + y == y;
      SpokenPrefix(v.value, w.value, lookup, n, act, false, x, y);
    }
  }

  lemma ClauseSplit(
    text: string, w: Option<Chain<Operand>>, lookup: map<string, nat>, n: nat, act: nat, x: seq<Piece>)
    ensures var ps := ClausePieces(text, w, lookup, n, act) + x;
            if w.None? then ps == x
            else ps == [Word(text)] + (ChainPieces(Translate(w.value, lookup, n, act)) + x) && ps[0] == Word(text)
  {
    hide ChainPieces, Translate;
    if w.Some? {
      Assoc([Word(text)], ChainPieces(Translate(w.value, lookup, n, act)), x);
    }
  }

  // ---------------------------------------------------------------- FROM

  lemma DefineDetermined(t: string, u: string, x: seq<Piece>, y: seq<Piece>)
    requires Identifier(t) && Identifier(u) && DefinePieces(t) + x == DefinePieces(u) + y
    ensures t == u && x == y
  {
    DefineStarts(t, x);
    DefineStarts(u, y);
    var ps := DefinePieces(t) + x;
    assert ps[0] == Word("=") ==> t == u;
    Cancel(DefinePieces(t), DefinePieces(u), x, y);
  }

  lemma DefineStarts(t: string, x: seq<Piece>)
    requires Identifier(t)
    ensures var ps := DefinePieces(t) + x;
            && (t[0] == '=' ==> |DefinePieces(t)| == 1 && ps[0] == Word(t) != Word("="))
            && (t[0] != '=' ==> |DefinePieces(t)| == 2 && ps[0] == Word("=") && ps[1] == Word(t))
  {
  }

  lemma TableDetermined(t: string, u: string, x: seq<Piece>, y: seq<Piece>)
    requires Identifier(t) && Identifier(u) && TablePieces(t) + x == TablePieces(u) + y
    ensures t == u && x == y
  {
    hide DefinePieces, Identifier;
    var a := [Word(" "), Word(if t != "" && t[0] == '=' then t[1..] else t)];
    var b := [Word(" "), Word(if u != "" && u[0] == '=' then u[1..] else u)];
    Assoc(DefinePieces(t), a, x);
    Assoc(DefinePieces(u), b, y);
    DefineDetermined(t, u, a + x, b + y);
    Cancel(a, b, x, y);
  }

  predicate NoComma(x: seq<Piece>) {
    x != [] && x[0] != Word(",")
  }

  lemma {:induction false} TablesDetermined(ts: seq<string>, us: seq<string>, x: seq<Piece>, y: seq<Piece>)
    requires ts != [] && us != [] && NoComma(x) && NoComma(y)
    requires (forall k :: 0 <= k < |ts| ==> Identifier(ts[k])) && (forall k :: 0 <= k < |us| ==> Identifier(us[k]))
    requires TablesPieces(ts) + x == TablesPieces(us) + y
    ensures ts == us && x == y
    decreases |ts|
  {
    hide TablePieces, Identifier;
    var p, q := MoreTables(ts) + x, MoreTables(us) + y;
    TablesSplit(ts, x);
    TablesSplit(us, y);
    TableDetermined(ts[0], us[0], [Word(" ")] + p, [Word(" ")] + q);
    Cancel([Word(" ")], [Word(" ")], p, q);
    if |ts| > 1 && |us| > 1 {
      Cancel([Word(",")], [Word(",")], TablesPieces(ts[1..]) + x, TablesPieces(us[1..]) + y);
      TablesDetermined(ts[1..], us[1..], x, y);
      assert ts == [ts[0]] + ts[1..] && us == [us[0]] + us[1..];
    } else {
      assert |ts| == |us| == 1;
      assert ts == [ts[0]] && us == [us[0]];
    }
  }

  function MoreTables(ts: seq<string>): seq<Piece>
    requires ts != []
  {
    if |ts| == 1 then [] else [Word(",")] + TablesPieces(ts[1..])
  }

  lemma TablesSplit(ts: seq<string>, x: seq<Piece>)
    requires ts != []
    ensures TablesPieces(ts) + x == TablePieces(ts[0]) + ([Word(" ")] + (MoreTables(ts) + x))
    ensures MoreTables(ts) + x == if |ts| == 1 then x else [Word(",")] + (TablesPieces(ts[1..]) + x)
  {
    hide TablePieces;
    var a, m := TablePieces(ts[0]), MoreTables(ts);
    assert TablesPieces(ts) == (a + [Word(" ")]) + m;
    Assoc(a + [Word(" ")], m, x);
    Assoc(a, [Word(" ")], m + x);
    if |ts| > 1 {
      Assoc([Word(",")], TablesPieces(ts[1..]), x);
    } else {
      assert m + x == x;
    }
  }

  predicate SpokenJoin(j: Joining) {
    JoinKind(j.kind) && Upper(j.text) == Spelling(j.kind) && Identifier(j.table) && Spoken(j.on)
  }

  lemma JoinSplit(j: Joining, lookup: map<string, nat>, n: nat, act: nat, x: seq<Piece>)
    ensures JoinPieces(j, lookup, n, act) + x
         == [Word(j.text), Word(" JOIN ")] + (TablePieces(j.table) + ([Word(" ON "), Open]
              + (ChainPieces(Translate(j.on, lookup, n, act)) + (TailPieces(true) + x))))
  {
    hide TablePieces, ChainPieces, Translate;
    var a, b, c := [Word(j.text), Word(" JOIN ")], TablePieces(j.table), [Word(" ON "), Open];
    var d, e := ChainPieces(Translate(j.on, lookup, n, act)), [Close, Word(" ")];
    Assoc(a + b + c + d, e, x);
    Assoc(a + b + c, d, e + x);
    Assoc(a + b, c, d + (e + x));
    Assoc(a, b, c + (d + (e + x)));
  }

  lemma KindsDiffer(s: Token, t: Token)
    requires JoinKind(s) && JoinKind(t) && Spelling(s) == Spelling(t)
    ensures s == t
  {
  }

  lemma JoinDetermined(
    i: Joining, j: Joining, lookup: map<string, nat>, n: nat, act: nat, x: seq<Piece>, y: seq<Piece>)
    requires SpokenJoin(i) && SpokenJoin(j) && Follows(true, x) && Follows(true, y)
    requires JoinPieces(i, lookup, n, act) + x == JoinPieces(j, lookup, n, act) + y
    ensures i == j && x == y
  {
    hide Spoken, JoinPieces, TablePieces, ChainPieces, Translate, Follows, Identifier, Spelling, Upper;
    var c, d := ChainPieces(Translate(i.on, lookup, n, act)) + (TailPieces(true) + x),
      ChainPieces(Translate(j.on, lookup, n, act)) + (TailPieces(true) + y);
    var o := [Word(" ON "), Open];
    JoinSplit(i, lookup, n, act, x);
    JoinSplit(j, lookup, n, act, y);
    var ps := JoinPieces(i, lookup, n, act) + x;
    assert ps[0] == Word(i.text) == Word(j.text);
    Cancel([Word(i.text), Word(" JOIN ")], [Word(j.text), Word(" JOIN ")], TablePieces(i.table)
      + (o + c), TablePieces(j.table) + (o + d));
    TableDetermined(i.table, j.table, o + c, o + d);
    Cancel(o, o, c, d);
    SpokenPrefix(i.on, j.on, lookup, n, act, true, x, y);
    KindsDiffer(i.kind, j.kind);
  }

  lemma {:induction false} JoinsDetermined(
    hs: seq<Joining>, js: seq<Joining>, lookup: map<string, nat>, n: nat, act: nat, x: seq<Piece>, y: seq<Piece>)
    requires (forall k :: 0 <= k < |hs| ==> SpokenJoin(hs[k])) && (forall k :: 0 <= k < |js| ==> SpokenJoin(js[k]))
    requires Blankly(x) && Blankly(y)
    requires JoinsPieces(hs, lookup, n, act) + x == JoinsPieces(js, lookup, n, act) + y
    ensures hs == js && x == y
    decreases |hs|
  {
    hide SpokenJoin, JoinPieces, ChainVars, Blankly, Follows;
    JoinsSplit(hs, lookup, n, act, x);
    JoinsSplit(js, lookup, n, act, y);
    if hs != [] && js != [] {
      var p := JoinsPieces(hs[1..], lookup, n + |ChainVars(hs[0].on)|, act) + x;
      var q := JoinsPieces(js[1..], lookup, n + |ChainVars(js[0].on)|, act) + y;
      JoinDetermined(hs[0], js[0], lookup, n, act, p, q);
      JoinsDetermined(hs[1..], js[1..], lookup, n + |ChainVars(hs[0].on)|, act, x, y);
      assert hs == [hs[0]] + hs[1..] && js == [js[0]] + js[1..];
    }
  }

  /** Joins begin with their kind, what follows them does not. */
  lemma {:induction false} JoinsSplit(js: seq<Joining>, lookup: map<string, nat>, n: nat, act: nat, x: seq<Piece>)
    requires (forall k :: 0 <= k < |js| ==> SpokenJoin(js[k])) && Blankly(x)
    ensures var ps := JoinsPieces(js, lookup, n, act) + x;
            && Follows(true, ps) && (js == [] ==> ps == x) && (js != [] ==> !Blankly(ps))
    ensures js != [] ==>
              var more := JoinsPieces(js[1..], lookup, n + |ChainVars(js[0].on)|, act) + x;
              JoinsPieces(js, lookup, n, act) + x == JoinPieces(js[0], lookup, n, act) + more && Follows(true, more)
    decreases |js|
  {
    hide JoinPieces, ChainVars, SpokenJoin;
    if js == [] {
      assert JoinsPieces(js, lookup, n, act) + x == x;
    } else {
      var m := n + |ChainVars(js[0].on)|;
      Assoc(JoinPieces(js[0], lookup, n, act), JoinsPieces(js[1..], lookup, m, act), x);
      JoinsSplit(js[1..], lookup, m, act, x);
      JoinBegins(js[0], lookup, n, act, JoinsPieces(js[1..], lookup, m, act) + x);
    }
  }

  lemma JoinBegins(j: Joining, lookup: map<string, nat>, n: nat, act: nat, x: seq<Piece>)
    requires SpokenJoin(j)
    ensures var ps := JoinPieces(j, lookup, n, act) + x;
            ps != [] && JoinWord(ps[0]) && !Blankly(ps)
  {
    hide Spoken, Identifier, TablePieces, ChainPieces, Translate, Upper, Spelling;
    JoinSplit(j, lookup, n, act, x);
    JoinText(j);
  }

  lemma JoinText(j: Joining)
    requires JoinKind(j.kind) && Upper(j.text) == Spelling(j.kind)
    ensures JoinWord(Word(j.text)) && j.text != "" && j.text[0] != ' '
  {
    assert Upper(j.text)[0] == ToUpper(j.text[0]);
  }

  // ---------------------------------------------------------------- FROM and WHERE together

  predicate SpokenBody(b: Body) {
    && b.from.tables != [] && (forall k :: 0 <= k < |b.from.tables| ==> Identifier(b.from.tables[k]))
    && (forall k :: 0 <= k < |b.from.joins| ==> SpokenJoin(b.from.joins[k])) && SpokenClause(b.where)
  }

  lemma FollowsNoComma(x: seq<Piece>)
    requires Follows(true, x)
    ensures NoComma(x)
  {
    assert Upper(",") == ",";
  }

  lemma BodySplit(b: Body, lookup: map<string, nat>, n: nat, act: nat, x: seq<Piece>)
    ensures BodyPieces(b, lookup, n, act) + x
         == [Word("FROM ")] + (TablesPieces(b.from.tables) + (JoinsPieces(b.from.joins, lookup, n, act)
              + (ClausePieces(" WHERE ", b.where, lookup, n + |JoinsVars(b.from.joins)|, act) + x)))
  {
    hide TablesPieces, JoinsPieces, ClausePieces, JoinsVars;
    var t, j := TablesPieces(b.from.tables), JoinsPieces(b.from.joins, lookup, n, act);
    var w := ClausePieces(" WHERE ", b.where, lookup, n + |JoinsVars(b.from.joins)|, act);
    Assoc([Word("FROM ")] + (t + j), w, x);
    Assoc([Word("FROM ")], t + j, w + x);
    Assoc(t, j, w + x);
  }

  lemma ClauseBlankly(
    text: string, w: Option<Chain<Operand>>, lookup: map<string, nat>, n: nat, act: nat, x: seq<Piece>)
    requires Blankly(x) && text != "" && text[0] == ' '
    ensures Blankly(ClausePieces(text, w, lookup, n, act) + x)
  {
    hide ChainPieces, Translate;
    ClauseSplit(text, w, lookup, n, act, x);
  }

  lemma BeyondBlankly(text: string, x: seq<Piece>)
    requires Beyond(text, x)
    ensures Blankly(x)
  {
  }

  lemma BodyDetermined(
    a: Body, b: Body, lookup: map<string, nat>, n: nat, act: nat, x: seq<Piece>, y: seq<Piece>)
    requires SpokenBody(a) && SpokenBody(b) && Beyond(" WHERE ", x) && Beyond(" WHERE ", y)
    requires BodyPieces(a, lookup, n, act) + x == BodyPieces(b, lookup, n, act) + y
    ensures a == b && x == y
  {
    hide TablesPieces, JoinsPieces, ClausePieces, JoinsVars, BodyPieces, SpokenJoin, SpokenClause, Identifier;
    hide Beyond, Blankly, Follows, NoComma;
    BeyondBlankly(" WHERE ", x);
    BeyondBlankly(" WHERE ", y);
    var v := ClausePieces(" WHERE ", a.where, lookup, n + |JoinsVars(a.from.joins)|, act) + x;
    var w := ClausePieces(" WHERE ", b.where, lookup, n + |JoinsVars(b.from.joins)|, act) + y;
    var i, j := JoinsPieces(a.from.joins, lookup, n, act) + v, JoinsPieces(b.from.joins, lookup, n, act) + w;
    BodySplit(a, lookup, n, act, x);
    BodySplit(b, lookup, n, act, y);
    Cancel([Word("FROM ")], [Word("FROM ")], TablesPieces(a.from.tables) + i, TablesPieces(b.from.tables) + j);
    ClauseBlankly(" WHERE ", a.where, lookup, n + |JoinsVars(a.from.joins)|, act, x);
    ClauseBlankly(" WHERE ", b.where, lookup, n + |JoinsVars(b.from.joins)|, act, y);
    JoinsSplit(a.from.joins, lookup, n, act, v);
    JoinsSplit(b.from.joins, lookup, n, act, w);
    FollowsNoComma(i);
    FollowsNoComma(j);
    TablesDetermined(a.from.tables, b.from.tables, i, j);
    JoinsDetermined(a.from.joins, b.from.joins, lookup, n, act, v, w);
    ClauseDetermined(" WHERE ", a.where, b.where, lookup, n + |JoinsVars(a.from.joins)|, act, x, y);
  }

  // ---------------------------------------------------------------- SELECT

  /** The names of the fields. */
  function ItemNames(items: seq<Item>): seq<Name> {
    if items == [] then [] else [items[0].name] + ItemNames(items[1..])
  }

  predicate SpokenItems(items: seq<Item>) {
    forall k :: 0 <= k < |items| ==> Identifier(FirstOf(items[k].name))
  }

  lemma ItemsSplit(items: seq<Item>, x: seq<Piece>)
    requires items != []
    ensures ItemsPieces(items) + x
         == NamePieces(items[0].name)
              + if |items| == 1 then [Word(" ")] + x else [Word(", "), Word(" ")] + (ItemsPieces(items[1..]) + x)
  {
    hide NamePieces;
    var a := NamePieces(items[0].name);
    if |items| == 1 {
      Assoc(a, [Word(" ")], x);
    } else {
      Assoc(a + [Word(", "), Word(" ")], ItemsPieces(items[1..]), x);
      Assoc(a, [Word(", "), Word(" ")], ItemsPieces(items[1..]) + x);
    }
  }

  lemma {:induction false} ItemsDetermined(a: seq<Item>, b: seq<Item>, x: seq<Piece>, y: seq<Piece>)
    requires a != [] && b != [] && ItemsPieces(a) + x == ItemsPieces(b) + y
    ensures ItemNames(a) == ItemNames(b) && x == y
    decreases |a|
  {
    hide ItemsPieces, NamePieces;
    var c, d := [Word(" ")], [Word(", "), Word(" ")];
    var u := if |a| == 1 then c + x else d + (ItemsPieces(a[1..]) + x);
    var v := if |b| == 1 then c + y else d + (ItemsPieces(b[1..]) + y);
    ItemsSplit(a, x);
    ItemsSplit(b, y);
    NameDetermined(a[0].name, b[0].name, u, v);
    assert u[0] == (if |a| == 1 then c[0] else d[0]) && v[0] == if |b| == 1 then c[0] else d[0];
    if |a| == 1 {
      Cancel(c, c, x, y);
    } else {
      Cancel(d, d, ItemsPieces(a[1..]) + x, ItemsPieces(b[1..]) + y);
      ItemsDetermined(a[1..], b[1..], x, y);
    }
  }

  /** What the fields begin with is no DISTINCT, and tells '*' from a name. */
  lemma FieldsStart(items: seq<Item>, x: seq<Piece>)
    requires SpokenItems(items)
    ensures var ps := FieldsPieces(items) + x;
            && ps != [] && ps[0] != Word("DISTINCT ") && (items == [] <==> ps[0] == Word("* "))
            && (items == [] ==> ps == [Word("* ")] + x)
  {
    hide NamePieces;
    assert !IsWord("DISTINCT "[8]) && !IsWord("* "[1]);
    if items != [] {
      ItemsSplit(items, x);
      NameStarts(items[0].name);
    }
  }

  lemma NameStarts(n: Name)
    ensures NamePieces(n) != [] && NamePieces(n)[0] == Word(FirstOf(n))
  {
  }

  lemma FieldsDetermined(a: seq<Item>, b: seq<Item>, x: seq<Piece>, y: seq<Piece>)
    requires SpokenItems(a) && SpokenItems(b) && FieldsPieces(a) + x == FieldsPieces(b) + y
    ensures ItemNames(a) == ItemNames(b) && x == y
  {
    hide ItemsPieces, SpokenItems;
    FieldsStart(a, x);
    FieldsStart(b, y);
    if a == [] {
      Cancel([Word("* ")], [Word("* ")], x, y);
    } else {
      ItemsDetermined(a, b, x, y);
    }
  }

  /** A field to sort by and whether it sorts upwards. */
  datatype Direction = Direction(name: Name, ascending: bool)

  function Directions(os: seq<Sort>): seq<Direction> {
    if os == [] then [] else [Direction(os[0].name, os[0].direction == Some(ASC))] + Directions(os[1..])
  }

  lemma SortsSplit(os: seq<Sort>, x: seq<Piece>)
    requires os != []
    ensures var word := Word(if os[0].direction == Some(ASC) then " ASC " else " DESC ");
            SortsPieces(os) + x
              == NamePieces(os[0].name)
                   + ([word] + if |os| == 1 then x else [Word(",")] + (SortsPieces(os[1..]) + x))
  {
    hide NamePieces;
    var a, w := NamePieces(os[0].name), [Word(if os[0].direction == Some(ASC) then " ASC " else " DESC ")];
    if |os| == 1 {
      Assoc(a, w, x);
    } else {
      Assoc(a + w + [Word(",")], SortsPieces(os[1..]), x);
      Assoc(a + w, [Word(",")], SortsPieces(os[1..]) + x);
      Assoc(a, w, [Word(",")] + (SortsPieces(os[1..]) + x));
    }
  }

  lemma {:induction false} SortsDetermined(a: seq<Sort>, b: seq<Sort>, x: seq<Piece>, y: seq<Piece>)
    requires a != [] && b != [] && NoComma(x) && NoComma(y) && SortsPieces(a) + x == SortsPieces(b) + y
    ensures Directions(a) == Directions(b) && x == y
    decreases |a|
  {
    hide SortsPieces, NamePieces;
    var v := [Word(if a[0].direction == Some(ASC) then " ASC " else " DESC ")];
    var w := [Word(if b[0].direction == Some(ASC) then " ASC " else " DESC ")];
    var p := if |a| == 1 then x else [Word(",")] + (SortsPieces(a[1..]) + x);
    var q := if |b| == 1 then y else [Word(",")] + (SortsPieces(b[1..]) + y);
    SortsSplit(a, x);
    SortsSplit(b, y);
    NameDetermined(a[0].name, b[0].name, v + p, w + q);
    Cancel(v, w, p, q);
    assert v[0] == w[0] && " ASC "[1] != " DESC "[1];
    if |a| > 1 {
      assert p[0] == Word(",");
      Cancel([Word(",")], [Word(",")], SortsPieces(a[1..]) + x, SortsPieces(b[1..]) + y);
      SortsDetermined(a[1..], b[1..], x, y);
    }
  }

  lemma OrderSplit(os: seq<Sort>, x: seq<Piece>)
    ensures OrderPieces(os) + x == if os == [] then x else [Word(" ORDER BY ")] + (SortsPieces(os) + x)
  {
    hide SortsPieces;
    Assoc([Word(" ORDER BY ")], SortsPieces(os), x);
  }

  lemma OrderDetermined(a: seq<Sort>, b: seq<Sort>, x: seq<Piece>, y: seq<Piece>)
    requires Beyond(" ORDER BY ", x) && Beyond(" ORDER BY ", y) && OrderPieces(a) + x == OrderPieces(b) + y
    ensures Directions(a) == Directions(b) && x == y
  {
    hide SortsPieces, OrderPieces;
    OrderSplit(a, x);
    OrderSplit(b, y);
    if a != [] && b != [] {
      Cancel([Word(" ORDER BY ")], [Word(" ORDER BY ")], SortsPieces(a) + x, SortsPieces(b) + y);
      SortsDetermined(a, b, x, y);
    }
  }

  lemma HeadDetermined(p: bool, q: bool, x: seq<Piece>, y: seq<Piece>)
    requires SelectHeadPieces(p) + x == SelectHeadPieces(q) + y
    requires x != [] && y != [] && x[0] != Word("DISTINCT ") && y[0] != Word("DISTINCT ")
    ensures p == q && x == y
  {
    var ps := SelectHeadPieces(p) + x;
    assert ps[1] == if p then Word("DISTINCT ") else x[0];
    assert ps[1] == if q then Word("DISTINCT ") else y[0];
    Cancel(SelectHeadPieces(p), SelectHeadPieces(q), x, y);
  }

  predicate SpokenQuery(q: Query) {
    && SpokenItems(q.items) && SpokenBody(q.body) && SpokenClause(q.having)
    && (q.union.Some? ==> SpokenQuery(q.union.value))
  }

  /** Queries that say the same but for the names AS gives; a field to sort by without a
      direction sorts downwards. */
  predicate SameQuery(a: Query, b: Query) {
    && a.distinct == b.distinct && ItemNames(a.items) == ItemNames(b.items) && a.body == b.body
    && a.having == b.having && Directions(a.order) == Directions(b.order)
    && (a.union.Some? <==> b.union.Some?) && (a.union.Some? ==> SameQuery(a.union.value, b.union.value))
  }

  lemma QuerySplit(q: Query, lookup: map<string, nat>, act: nat)
    ensures QueryPieces(q, lookup, act)
         == SelectHeadPieces(q.distinct) + (FieldsPieces(q.items) + (BodyPieces(q.body, lookup, 0, act)
              + (ClausePieces(" HAVING ", q.having, lookup, |BodyVars(q.body)|, act)
                   + (OrderPieces(q.order) + UnionPieces(q.union, lookup, act)))))
  {
    hide SelectHeadPieces, FieldsPieces, BodyPieces, ClausePieces, OrderPieces, UnionPieces, BodyVars;
    var f, b := FieldsPieces(q.items), BodyPieces(q.body, lookup, 0, act);
    var h, o := ClausePieces(" HAVING ", q.having, lookup, |BodyVars(q.body)|, act), OrderPieces(q.order);
    var u := UnionPieces(q.union, lookup, act);
    Assoc(f, b + (h + o), u);
    Assoc(b, h + o, u);
    Assoc(h, o, u);
  }

  /** The words behind one clause are not the word of it. */
  lemma TrailStarts(q: Query, lookup: map<string, nat>, n: nat, act: nat)
    ensures var u := UnionPieces(q.union, lookup, act);
            var o := OrderPieces(q.order) + u;
            var h := ClausePieces(" HAVING ", q.having, lookup, n, act) + o;
            Beyond(" ORDER BY ", u) && Beyond(" HAVING ", o) && Beyond(" WHERE ", h)
  {
    hide SortsPieces, ChainPieces, Translate, UnionPieces, OrderPieces, ClausePieces, Beyond, Blankly;
    var u := UnionPieces(q.union, lookup, act);
    var o := OrderPieces(q.order) + u;
    var h := ClausePieces(" HAVING ", q.having, lookup, n, act) + o;
    UnionStarts(q.union, lookup, act);
    OrderSplit(q.order, u);
    ClauseSplit(" HAVING ", q.having, lookup, n, act, o);
    ClauseWords(u);
    ClauseWords(o);
    ClauseWords(h);
  }

  lemma UnionStarts(u: Option<Query>, lookup: map<string, nat>, act: nat)
    ensures var ps := UnionPieces(u, lookup, act); ps != [] && ps[0] == Word(" FOR BROWSE ACCESS ")
  {
    hide QueryPieces;
  }

  lemma ClauseWords(x: seq<Piece>)
    requires x != []
    ensures x[0] == Word(" FOR BROWSE ACCESS ") ==>
              Beyond(" ORDER BY ", x) && Beyond(" HAVING ", x) && Beyond(" WHERE ", x)
    ensures x[0] == Word(" ORDER BY ") ==> Beyond(" HAVING ", x) && Beyond(" WHERE ", x)
    ensures x[0] == Word(" HAVING ") ==> Beyond(" WHERE ", x)
  {
    assert " FOR BROWSE ACCESS "[1] == 'F' && " ORDER BY "[1] == 'O' && " HAVING "[1] == 'H' && " WHERE "[1] == 'W';
  }

  /** The fields and clauses of one SELECT, and what the rest of the text is. */
  lemma SelectDetermined(a: Query, b: Query, lookup: map<string, nat>, act: nat)
    requires SpokenQuery(a) && SpokenQuery(b) && QueryPieces(a, lookup, act) == QueryPieces(b, lookup, act)
    ensures a.distinct == b.distinct && ItemNames(a.items) == ItemNames(b.items) && a.body == b.body
    ensures a.having == b.having && Directions(a.order) == Directions(b.order)
    ensures UnionPieces(a.union, lookup, act) == UnionPieces(b.union, lookup, act)
  {
    hide SelectHeadPieces, FieldsPieces, BodyPieces, ClausePieces, OrderPieces, UnionPieces, BodyVars, QueryPieces;
    hide SpokenItems, SpokenBody, SpokenClause, Beyond;
    var m, n := |BodyVars(a.body)|, |BodyVars(b.body)|;
    var u, v := UnionPieces(a.union, lookup, act), UnionPieces(b.union, lookup, act);
    var o, p := OrderPieces(a.order) + u, OrderPieces(b.order) + v;
    var h, i := ClausePieces(" HAVING ", a.having, lookup, m, act)
      + o, ClausePieces(" HAVING ", b.having, lookup, n, act) + p;
    var c, d := BodyPieces(a.body, lookup, 0, act) + h, BodyPieces(b.body, lookup, 0, act) + i;
    QuerySplit(a, lookup, act);
    QuerySplit(b, lookup, act);
    TrailStarts(a, lookup, m, act);
    TrailStarts(b, lookup, n, act);
    FieldsStart(a.items, c);
    FieldsStart(b.items, d);
    HeadDetermined(a.distinct, b.distinct, FieldsPieces(a.items) + c, FieldsPieces(b.items) + d);
    FieldsDetermined(a.items, b.items, c, d);
    BodyDetermined(a.body, b.body, lookup, 0, act, h, i);
    ClauseDetermined(" HAVING ", a.having, b.having, lookup, m, act, o, p);
    OrderDetermined(a.order, b.order, u, v);
  }

  /** Queries that are written alike say the same. */
  lemma {:induction false} QueryDetermined(a: Query, b: Query, lookup: map<string, nat>, act: nat)
    requires SpokenQuery(a) && SpokenQuery(b) && QueryPieces(a, lookup, act) == QueryPieces(b, lookup, act)
    ensures SameQuery(a, b)
    decreases a
  {
    hide SpokenItems, SpokenBody, SpokenClause, QueryPieces;
    SelectDetermined(a, b, lookup, act);
    UnionSplit(a.union, lookup, act);
    UnionSplit(b.union, lookup, act);
    if a.union.Some? {
      var x, y := QueryPieces(a.union.value, lookup, act + 1), QueryPieces(b.union.value, lookup, act + 1);
      var head := [Word(" FOR BROWSE ACCESS "), Word(" UNION ")];
      Cancel(head, head, x, y);
      QueryDetermined(a.union.value, b.union.value, lookup, act + 1);
    }
  }

  lemma UnionSplit(u: Option<Query>, lookup: map<string, nat>, act: nat)
    ensures var ps := UnionPieces(u, lookup, act);
            && (u.None? ==> |ps| == 1)
            && (u.Some? ==>
                  |ps| > 1
                    && ps == [Word(" FOR BROWSE ACCESS "), Word(" UNION ")] + QueryPieces(u.value, lookup, act + 1))
  {
    hide QueryPieces;
    if u.Some? {
      Assoc([Word(" FOR BROWSE ACCESS ")], [Word(" UNION ")], QueryPieces(u.value, lookup, act + 1));
      assert [Word(" FOR BROWSE ACCESS ")] + [Word(" UNION ")] == [Word(" FOR BROWSE ACCESS "), Word(" UNION ")];
    }
  }

  // ---------------------------------------------------------------- UPDATE and INSERT

  predicate SpokenUpdate(u: Updating) {
    && u.settings != [] && Identifier(u.table) && SpokenClause(u.where)
    && forall k :: 0 <= k < |u.settings| ==> ProperValue(u.settings[k].value)
  }

  lemma SettingDetermined(g: Setting, h: Setting, x: seq<Piece>, y: seq<Piece>)
    requires ProperValue(g.value) && ProperValue(h.value) && SettingPieces(g) + x == SettingPieces(h) + y
    ensures g == h && x == y
  {
    hide ProperValue, NamePieces, ValuePiece;
    var a, b := [Word(" = "), ValuePiece(g.value), Word(" ")], [Word(" = "), ValuePiece(h.value), Word(" ")];
    Assoc(NamePieces(g.name), a, x);
    Assoc(NamePieces(h.name), b, y);
    NameDetermined(g.name, h.name, a + x, b + y);
    Cancel(a, b, x, y);
    assert a[1] == b[1];
    ValueDetermined(g.value, h.value);
  }

  lemma SettingsSplit(gs: seq<Setting>, x: seq<Piece>)
    requires gs != []
    ensures SettingsPieces(gs) + x
         == SettingPieces(gs[0]) + if |gs| == 1 then x else [Word(",")] + (SettingsPieces(gs[1..]) + x)
  {
    hide SettingPieces;
    if |gs| > 1 {
      Assoc(SettingPieces(gs[0]) + [Word(",")], SettingsPieces(gs[1..]), x);
      Assoc(SettingPieces(gs[0]), [Word(",")], SettingsPieces(gs[1..]) + x);
    }
  }

  lemma {:induction false} SettingsDetermined(gs: seq<Setting>, hs: seq<Setting>, x: seq<Piece>, y: seq<Piece>)
    requires gs != [] && hs != [] && NoComma(x) && NoComma(y)
    requires forall k :: 0 <= k < |gs| ==> ProperValue(gs[k].value)
    requires forall k :: 0 <= k < |hs| ==> ProperValue(hs[k].value)
    requires SettingsPieces(gs) + x == SettingsPieces(hs) + y
    ensures gs == hs && x == y
    decreases |gs|
  {
    hide ProperValue, SettingPieces, SettingsPieces;
    var p := if |gs| == 1 then x else [Word(",")] + (SettingsPieces(gs[1..]) + x);
    var q := if |hs| == 1 then y else [Word(",")] + (SettingsPieces(hs[1..]) + y);
    SettingsSplit(gs, x);
    SettingsSplit(hs, y);
    SettingDetermined(gs[0], hs[0], p, q);
    if |gs| > 1 {
      assert p[0] == Word(",");
      Cancel([Word(",")], [Word(",")], SettingsPieces(gs[1..]) + x, SettingsPieces(hs[1..]) + y);
      SettingsDetermined(gs[1..], hs[1..], x, y);
      assert gs == [gs[0]] + gs[1..] && hs == [hs[0]] + hs[1..];
    } else {
      assert gs == [gs[0]] && hs == [hs[0]];
    }
  }

  lemma UpdateSplit(u: Updating, lookup: map<string, nat>, x: seq<Piece>)
    ensures (UpdateHeadPieces(u.table) + UpdateTailPieces(u, lookup, 0)) + x
         == [Word("UPDATE ")] + (DefinePieces(u.table) + ([Word(" SET ")] + (SettingsPieces(u.settings)
              + (ClausePieces(" WHERE ", u.where, lookup, 0, 0) + x))))
  {
    hide DefinePieces, SettingsPieces, ClausePieces;
    var d, g, w := DefinePieces(u.table), SettingsPieces(u.settings), ClausePieces(" WHERE ", u.where, lookup, 0, 0);
    Assoc([Word("UPDATE ")] + d + [Word(" SET ")], g + w, x);
    Assoc([Word("UPDATE ")] + d, [Word(" SET ")], (g + w) + x);
    Assoc([Word("UPDATE ")], d, [Word(" SET ")] + ((g + w) + x));
    Assoc(g, w, x);
  }

  lemma UpdateDetermined(a: Updating, b: Updating, lookup: map<string, nat>)
    requires SpokenUpdate(a) && SpokenUpdate(b)
    requires UpdateHeadPieces(a.table) + UpdateTailPieces(a, lookup, 0)
          == UpdateHeadPieces(b.table) + UpdateTailPieces(b, lookup, 0)
    ensures a == b
  {
    hide DefinePieces, SettingsPieces, ClausePieces, UpdateHeadPieces, UpdateTailPieces, SpokenClause;
    hide Identifier, ProperValue;
    hide Beyond, Blankly, NoComma;
    var x := [Word(" ")];
    var v, w := ClausePieces(" WHERE ", a.where, lookup, 0, 0) + x, ClausePieces(" WHERE ", b.where, lookup, 0, 0) + x;
    var g, h := SettingsPieces(a.settings) + v, SettingsPieces(b.settings) + w;
    UpdateSplit(a, lookup, x);
    UpdateSplit(b, lookup, x);
    Cancel([Word("UPDATE ")], [Word("UPDATE ")], DefinePieces(a.table) + ([Word(" SET ")] + g),
           DefinePieces(b.table) + ([Word(" SET ")] + h));
    DefineDetermined(a.table, b.table, [Word(" SET ")] + g, [Word(" SET ")] + h);
    Cancel([Word(" SET ")], [Word(" SET ")], g, h);
    BlankAlone(x);
    ClauseBlankly(" WHERE ", a.where, lookup, 0, 0, x);
    ClauseBlankly(" WHERE ", b.where, lookup, 0, 0, x);
    BlanklyNoComma(v);
    BlanklyNoComma(w);
    SettingsDetermined(a.settings, b.settings, v, w);
    ClauseDetermined(" WHERE ", a.where, b.where, lookup, 0, 0, x, x);
  }

  lemma BlankAlone(x: seq<Piece>)
    requires x == [Word(" ")]
    ensures Beyond(" WHERE ", x) && Blankly(x)
  {
  }

  lemma BlanklyNoComma(x: seq<Piece>)
    requires Blankly(x)
    ensures NoComma(x)
  {
  }

  predicate SpokenInsert(i: Insertion) {
    i.columns != [] && i.values != [] && Identifier(i.table) && ProperValues(i.values)
  }

  lemma {:induction false} ColumnsDetermined(cs: seq<string>, ds: seq<string>, x: seq<Piece>, y: seq<Piece>)
    requires cs != [] && ds != [] && x != [] && x[0].Close? && y != [] && y[0].Close?
    requires ColumnsPieces(cs) + x == ColumnsPieces(ds) + y
    ensures cs == ds && x == y
    decreases |cs|
  {
    hide ColumnsPieces;
    ColumnsSplit(cs, x);
    ColumnsSplit(ds, y);
    var p := if |cs| == 1 then x else [Word(",")] + (ColumnsPieces(cs[1..]) + x);
    var q := if |ds| == 1 then y else [Word(",")] + (ColumnsPieces(ds[1..]) + y);
    Cancel([Word(cs[0])], [Word(ds[0])], p, q);
    if |cs| > 1 {
      assert p[0] == Word(",");
      Cancel([Word(",")], [Word(",")], ColumnsPieces(cs[1..]) + x, ColumnsPieces(ds[1..]) + y);
      ColumnsDetermined(cs[1..], ds[1..], x, y);
      assert cs == [cs[0]] + cs[1..] && ds == [ds[0]] + ds[1..];
    } else {
      assert cs == [cs[0]] && ds == [ds[0]];
    }
  }

  lemma ColumnsSplit(cs: seq<string>, x: seq<Piece>)
    requires cs != []
    ensures ColumnsPieces(cs) + x
         == [Word(cs[0])] + if |cs| == 1 then x else [Word(",")] + (ColumnsPieces(cs[1..]) + x)
  {
    if |cs| > 1 {
      assert [Word(cs[0]), Word(",")] == [Word(cs[0])] + [Word(",")];
      Assoc([Word(cs[0])] + [Word(",")], ColumnsPieces(cs[1..]), x);
      Assoc([Word(cs[0])], [Word(",")], ColumnsPieces(cs[1..]) + x);
    }
  }

  lemma InsertSplit(i: Insertion)
    ensures InsertPieces(i)
         == [Word(" INSERT INTO ")] + (DefinePieces(i.table) + ([Open] + (ColumnsPieces(i.columns)
              + InsertTailPieces(i.values))))
    ensures InsertTailPieces(i.values) == [Close, Word(" VALUES "), Open] + (ValuesPieces(i.values) + [Close] + [])
  {
    hide DefinePieces, ColumnsPieces, ValuesPieces;
    var d, e := DefinePieces(i.table), ColumnsPieces(i.columns) + InsertTailPieces(i.values);
    Assoc([Word(" INSERT INTO ")] + d, [Open], e);
    Assoc([Word(" INSERT INTO ")], d, [Open] + e);
    assert ValuesPieces(i.values) + [Close] + [] == ValuesPieces(i.values) + [Close];
  }

  lemma InsertDetermined(a: Insertion, b: Insertion)
    requires SpokenInsert(a) && SpokenInsert(b) && InsertPieces(a) == InsertPieces(b)
    ensures a == b
  {
    hide DefinePieces, ColumnsPieces, ValuesPieces, InsertPieces, InsertTailPieces, Identifier, ProperValues;
    var x, y := InsertTailPieces(a.values), InsertTailPieces(b.values);
    var c, d := ColumnsPieces(a.columns) + x, ColumnsPieces(b.columns) + y;
    InsertSplit(a);
    InsertSplit(b);
    Cancel([Word(" INSERT INTO ")], [Word(" INSERT INTO ")], DefinePieces(a.table) + ([Open] + c),
           DefinePieces(b.table) + ([Open] + d));
    DefineDetermined(a.table, b.table, [Open] + c, [Open] + d);
    Cancel([Open], [Open], c, d);
    ColumnsDetermined(a.columns, b.columns, x, y);
    var head := [Close, Word(" VALUES "), Open];
    Cancel(head, head, ValuesPieces(a.values) + [Close] + [], ValuesPieces(b.values) + [Close] + []);
    ValuesDetermined(a.values, b.values, [], []);
  }

  // ---------------------------------------------------------------- statements

  predicate SpokenStatement(s: Statement) {
    match s
    case Select(q) => SpokenQuery(q)
    case Delete(b) => SpokenBody(b)
    case Update(u) => SpokenUpdate(u)
    case Insert(i) => SpokenInsert(i)
  }

  /** The same statement, or queries that say the same. */
  predicate SameStatement(s: Statement, t: Statement) {
    if s.Select? && t.Select? then SameQuery(s.query, t.query) else s == t
  }

  /** The first word tells what a statement is. */
  lemma KindShows(s: Statement, lookup: map<string, nat>)
    ensures var ps := StatementPieces(s, lookup);
            ps != [] && ps[0] == Word(match s case Select(_) => "SELECT " case Delete(_) => "DELETE "
                                      case Update(_) => "UPDATE " case Insert(_) => " INSERT INTO ")
  {
    hide SelectBodyPieces, UnionPieces, BodyPieces, DefinePieces, UpdateTailPieces, ColumnsPieces, InsertTailPieces;
  }

  lemma DeleteDetermined(a: Body, b: Body, lookup: map<string, nat>)
    requires SpokenBody(a) && SpokenBody(b)
    requires [Word("DELETE ")] + BodyPieces(a, lookup, 0, 0) == [Word("DELETE ")] + BodyPieces(b, lookup, 0, 0)
    ensures a == b
  {
    hide SpokenBody, BodyPieces, Beyond;
    Cancel([Word("DELETE ")], [Word("DELETE ")], BodyPieces(a, lookup, 0, 0), BodyPieces(b, lookup, 0, 0));
    BlankAlone([Word(" ")]);
    BodyDetermined(a, b, lookup, 0, 0, [Word(" ")], [Word(" ")]);
  }

  /** Statements that are written alike are the same. */
  lemma StatementDetermined(s: Statement, t: Statement, lookup: map<string, nat>)
    requires SpokenStatement(s) && SpokenStatement(t) && StatementPieces(s, lookup) == StatementPieces(t, lookup)
    ensures SameStatement(s, t)
  {
    hide SpokenQuery, SpokenBody, SpokenUpdate, SpokenInsert, QueryPieces, BodyPieces, UpdateHeadPieces;
    hide UpdateTailPieces;
    hide InsertPieces, SameQuery;
    KindShows(s, lookup);
    KindShows(t, lookup);
    assert "SELECT "[0] == 'S' && "DELETE "[0] == 'D' && "UPDATE "[0] == 'U' && " INSERT INTO "[0] == ' ';
    match s
    case Select(q) => QueryDetermined(q, t.query, lookup, 1);
    case Delete(b) => DeleteDetermined(b, t.body, lookup);
    case Update(u) => UpdateDetermined(u, t.update, lookup);
    case Insert(i) => InsertDetermined(i, t.insertion);
  }

  // ---------------------------------------------------------------- spelled chains

  lemma OperandAtName(src: string, c: Cursor, o: Operand)
    requires OperandEnd(src, c, o).Some? && Lexed(c)
    ensures forall k :: 0 <= k < |OperandVars(o)| ==> AtName(OperandVars(o)[k])
  {
    hide NextOk, NextCursor, AtName, Identifier, Numeral, Spelling, Upper;
  }

  lemma SaidAtNames(src: string, c: Cursor, test: Test<Operand>)
    requires SaidEnd(src, c, test).Some?
    ensures forall k :: 0 <= k < |TestVars(test)| ==> AtName(TestVars(test)[k])
  {
    hide NextOk, NextCursor, OperandEnd, AtName, Lexed, OperandVars, ListEnd;
    if test.Compare? {
      CompareParts(src, c, test.op, test.negated, test.operand);
      var next := NextCursor(src, c);
      NextLexed(src, c);
      if test.negated {
        TakeLexed(src, next, NOT);
      }
      OperandAtName(src, NotEnd(src, next, test.negated).value, test.operand);
    }
  }

  lemma CondAtNames(src: string, c: Cursor, k: Cond<Operand>)
    requires CondEnd(src, c, k).Some?
    ensures forall i :: 0 <= i < |TestVars(k.test)| ==> AtName(TestVars(k.test)[i])
  {
    hide NextOk, NextCursor, NameEnd, SaidEnd, AtName, TestVars, OpenEnd;
    SaidAtNames(src, NameEnd(src, OpenEnd(src, c, k.open).value, k.column).value, k.test);
  }

  lemma LinkLexed(src: string, c: Cursor, test: Test<Operand>, link: Link)
    requires LinkEnd(src, c, test, link).Some? && Lexed(c)
    ensures Lexed(LinkEnd(src, c, test, link).value)
  {
    hide NextOk, NextCursor, Lexed;
    if link.Conj? {
      NextLexed(src, c);
    }
  }

  lemma {:induction false} ChainLexed(src: string, c: Cursor, ch: Chain<Operand>, depth: nat)
    requires ChainEnd(src, c, ch, depth).Some? && Lexed(c)
    ensures Lexed(ChainEnd(src, c, ch, depth).value)
    ensures forall k :: 0 <= k < |ChainVars(ch)| ==> AtName(ChainVars(ch)[k])
    decreases ch
  {
    hide NextOk, NextCursor, CondEnd, LinkEnd, DepthAfter, Lexed, AtName, TestVars, ProperCond, TranslateCond;
    CondProper(src, c, ch.cond, map[], 0, 0);
    CondAtNames(src, c, ch.cond);
    if ch.Join? {
      var e := CondEnd(src, c, ch.cond).value;
      LinkLexed(src, e, ch.cond.test, ch.link);
      ChainLexed(src, LinkEnd(src, e, ch.cond.test, ch.link).value, ch.rest, DepthAfter(ch.cond, depth));
    }
  }

  lemma ChainSpoken(src: string, c: Cursor, ch: Chain<Operand>, depth: nat)
    requires ChainEnd(src, c, ch, depth).Some? && Lexed(c)
    ensures Spoken(ch) && Lexed(ChainEnd(src, c, ch, depth).value)
  {
    hide ChainEnd, Lexed, AtName, ChainVars, Proper, Translate;
    ChainProper(src, c, ch, depth, map[], 0, 0);
    ChainLexed(src, c, ch, depth);
  }

  lemma ClauseSpoken(src: string, c: Cursor, t: Token, w: Option<Chain<Operand>>)
    requires ClauseEnd(src, c, t, w).Some?
    ensures SpokenClause(w)
  {
    hide NextOk, NextCursor, ChainEnd, Lexed, Spoken;
    if w.Some? {
      TakeLexed(src, c, t);
      ChainSpoken(src, Take(src, c, t).value, w.value, 0);
    }
  }

  // ---------------------------------------------------------------- spelled statements

  lemma {:induction false} TablesSpoken(src: string, c: Cursor, ts: seq<string>)
    requires TablesEnd(src, c, ts).Some? && Lexed(c)
    ensures ts != [] && (forall k :: 0 <= k < |ts| ==> Identifier(ts[k])) && Lexed(TablesEnd(src, c, ts).value)
    decreases |ts|
  {
    hide NextOk, NextCursor, Identifier, Numeral, Spelling, Upper;
    NextLexed(src, c);
    if |ts| > 1 {
      var e := NextCursor(src, c);
      NextLexed(src, e);
      TablesSpoken(src, NextCursor(src, e), ts[1..]);
      assert ts == [ts[0]] + ts[1..];
    }
  }

  lemma JoinHeadSpoken(src: string, c: Cursor, j: Joining)
    requires JoinHeadEnd(src, c, j).Some? && Lexed(c)
    ensures JoinKind(j.kind) && Upper(j.text) == Spelling(j.kind) && Identifier(j.table)
    ensures Lexed(JoinHeadEnd(src, c, j).value)
  {
    hide NextOk, NextCursor, Identifier, Numeral, Upper;
    var d := NextCursor(src, c);
    var e := NextCursor(src, d);
    NextLexed(src, d);
    JoinStarts(src, c, j);
  }

  lemma JoinSpoken(src: string, c: Cursor, j: Joining)
    requires JoinEnd(src, c, j).Some? && Lexed(c)
    ensures SpokenJoin(j) && Lexed(JoinEnd(src, c, j).value)
  {
    hide JoinHeadEnd, ChainEnd, Lexed, Spoken, Identifier, Spelling, Upper;
    JoinHeadSpoken(src, c, j);
    ChainSpoken(src, JoinHeadEnd(src, c, j).value, j.on, 0);
  }

  lemma {:induction false} JoinsSpoken(src: string, c: Cursor, js: seq<Joining>)
    requires JoinsEnd(src, c, js).Some? && Lexed(c)
    ensures forall k :: 0 <= k < |js| ==> SpokenJoin(js[k])
    decreases |js|
  {
    hide JoinEnd, Lexed, SpokenJoin;
    if js != [] {
      JoinSpoken(src, c, js[0]);
      JoinsSpoken(src, JoinEnd(src, c, js[0]).value, js[1..]);
      assert js == [js[0]] + js[1..];
    }
  }

  lemma BodySpoken(src: string, c: Cursor, b: Body)
    requires BodyEnd(src, c, b).Some?
    ensures SpokenBody(b)
  {
    hide NextOk, NextCursor, TablesEnd, JoinsEnd, ClauseEnd, Lexed, SpokenJoin, SpokenClause, Identifier;
    var d := Take(src, c, FROM).value;
    TakeLexed(src, c, FROM);
    TablesSpoken(src, d, b.from.tables);
    JoinsSpoken(src, TablesEnd(src, d, b.from.tables).value, b.from.joins);
    ClauseSpoken(src, FromEnd(src, c, b.from).value, WHERE, b.where);
  }

  lemma {:induction false} ItemsSpoken(src: string, c: Cursor, items: seq<Item>)
    requires ItemsEnd(src, c, items).Some? && Lexed(c)
    ensures SpokenItems(items)
    decreases |items|
  {
    hide NextOk, NextCursor, NameEnd, AliasEnd, Identifier, Lexed;
    NameProper(src, c, items[0].name);
    if |items| > 1 {
      var e := ItemEnd(src, c, items[0]).value;
      TakeLexed(src, e, COMMA);
      ItemsSpoken(src, Take(src, e, COMMA).value, items[1..]);
      assert items == [items[0]] + items[1..];
    }
  }

  lemma HeadLexed(src: string, c: Cursor, distinct: bool)
    requires SelectHeadEnd(src, c, distinct).Some?
    ensures Lexed(SelectHeadEnd(src, c, distinct).value)
  {
    hide NextOk, NextCursor, Lexed;
    TakeLexed(src, c, SELECT);
    if distinct {
      TakeLexed(src, Take(src, c, SELECT).value, DISTINCT);
    }
  }

  lemma SelectSpoken(src: string, c: Cursor, q: Query)
    requires SelectEnd(src, c, q).Some?
    ensures SpokenItems(q.items) && SpokenBody(q.body) && SpokenClause(q.having)
  {
    hide NextOk, NextCursor, SelectHeadEnd, ItemsEnd, BodyEnd, ClauseEnd, OrderEnd, Lexed, SpokenBody;
    hide SpokenClause, Identifier;
    var d := SelectHeadEnd(src, c, q.distinct).value;
    HeadLexed(src, c, q.distinct);
    if q.items != [] {
      ItemsSpoken(src, d, q.items);
    }
    var f := FieldsEnd(src, d, q.items).value;
    BodySpoken(src, f, q.body);
    ClauseSpoken(src, BodyEnd(src, f, q.body).value, HAVING, q.having);
  }

  lemma {:induction false} QuerySpoken(src: string, c: Cursor, q: Query)
    requires QueryEnd(src, c, q).Some?
    ensures SpokenQuery(q)
    decreases q
  {
    hide NextOk, NextCursor, SelectEnd, SpokenItems, SpokenBody, SpokenClause;
    SelectSpoken(src, c, q);
    if q.union.Some? {
      QuerySpoken(src, Take(src, SelectEnd(src, c, q).value, UNION).value, q.union.value);
    }
  }

  lemma {:induction false} SettingsSpoken(src: string, c: Cursor, gs: seq<Setting>)
    requires SettingsEnd(src, c, gs).Some?
    ensures gs != [] && forall k :: 0 <= k < |gs| ==> ProperValue(gs[k].value)
    decreases |gs|
  {
    hide NextOk, NextCursor, NameEnd, ValueEnd, ProperValue, Lexed;
    var d := NameEnd(src, c, gs[0].name).value;
    TakeLexed(src, d, EQ);
    ValueProper(src, Take(src, d, EQ).value, gs[0].value);
    if |gs| > 1 {
      SettingsSpoken(src, Take(src, SettingEnd(src, c, gs[0]).value, COMMA).value, gs[1..]);
      assert gs == [gs[0]] + gs[1..];
    }
  }

  lemma UpdateSpoken(src: string, c: Cursor, u: Updating)
    requires UpdateEnd(src, c, u).Some?
    ensures SpokenUpdate(u)
  {
    hide NextOk, NextCursor, SettingsEnd, ClauseEnd, Identifier, Numeral, Spelling, Upper, SpokenClause, ProperValue;
    NextLexed(src, c);
    var d := UpdateHeadEnd(src, c, u.table).value;
    SettingsSpoken(src, d, u.settings);
    ClauseSpoken(src, SettingsEnd(src, d, u.settings).value, WHERE, u.where);
  }

  lemma {:induction false} ValuesSpoken(src: string, c: Cursor, vs: seq<Value>)
    requires ValuesEnd(src, c, vs).Some? && Lexed(c)
    ensures vs != [] && ProperValues(vs)
    decreases |vs|
  {
    hide NextOk, NextCursor, ValueEnd, ProperValue, Lexed;
    ValueProper(src, c, vs[0]);
    if |vs| > 1 {
      var e := ValueEnd(src, c, vs[0]).value;
      TakeLexed(src, e, COMMA);
      ValuesSpoken(src, Take(src, e, COMMA).value, vs[1..]);
      assert vs == [vs[0]] + vs[1..];
    }
  }

  lemma InsertHeadSpoken(src: string, c: Cursor, table: string)
    requires InsertHeadEnd(src, c, table).Some?
    ensures Identifier(table)
  {
    hide NextOk, NextCursor, Identifier, Numeral, Spelling, Upper;
    NextLexed(src, NextCursor(src, c));
  }

  lemma InsertSpoken(src: string, c: Cursor, i: Insertion)
    requires InsertEnd(src, c, i).Some?
    ensures SpokenInsert(i)
  {
    hide NextOk, NextCursor, InsertHeadEnd, ColumnsEnd, ValuesEnd, Identifier, ProperValues, Lexed;
    InsertHeadSpoken(src, c, i.table);
    var b := InsertHeadEnd(src, c, i.table).value;
    ColumnsStart(src, b, i.columns);
    var d := ColumnsEnd(src, b, i.columns).value;
    var e := ValuesHeadEnd(src, d).value;
    ValuesHeadLexed(src, d);
    ValuesSpoken(src, e, i.values);
  }

  lemma ValuesHeadLexed(src: string, c: Cursor)
    requires ValuesHeadEnd(src, c).Some?
    ensures Lexed(ValuesHeadEnd(src, c).value)
  {
    hide NextOk, NextCursor, Lexed;
    NextLexed(src, NextCursor(src, NextCursor(src, c)));
  }

  lemma StatementSpoken(src: string, c: Cursor, s: Statement)
    requires StatementEnd(src, c, s).Some?
    ensures SpokenStatement(s)
  {
    hide NextOk, NextCursor, QueryEnd, BodyEnd, UpdateEnd, InsertEnd, SpokenQuery, SpokenBody, SpokenUpdate;
    hide SpokenInsert;
    match s
    case Select(q) => QuerySpoken(src, c, q);
    case Delete(b) => BodySpoken(src, Take(src, c, DELETE).value, b);
    case Update(u) => UpdateSpoken(src, c, u);
    case Insert(i) => InsertSpoken(src, c, i);
  }

  /** Two texts whose translations are the same piece by piece have the same statement, but
      for the names AS gives and for DESC, which may be left out. */
  lemma StatementReadsBack(src: string, p: Procedure, text: string, q: Procedure, lookup: map<string, nat>)
    requires SpellsProcedure(src, p) && SpellsProcedure(text, q)
    requires StatementPieces(p.statement, lookup) == StatementPieces(q.statement, lookup)
    ensures SameStatement(p.statement, q.statement)
  {
    hide TitleEnd, ParamsEnd, StatementEnd, StatementPieces, SameStatement, SpokenStatement;
    StatementSpoken(src, ParamsEnd(src, TitleEnd(src, INITIAL, p).value, p).value, p.statement);
    StatementSpoken(text, ParamsEnd(text, TitleEnd(text, INITIAL, q).value, q).value, q.statement);
    StatementDetermined(p.statement, q.statement, lookup);
  }
}
