/**
  The translation as one pass over the tokens: what each token is rewritten to where it
  stands.  The text of every spelled statement comes out of this pass.
 */
module SqlRewrite {

  import opened Common
  import opened SqlLex
  import opened SqlOutput
  import opened SqlChain
  import opened SqlStatement

  // ---------------------------------------------------------------- the pass

  /** Where in a statement a token stands.  A `dotted` name has its qualifier read, and to
      what is `whole` no '.' belongs. */
  datatype Place =
    | Title                              // in front of the statement
    | Begin                              // where a statement begins
    | Items                              // among the fields of a SELECT
    | Naming                             // behind AS
    | Sources                            // among the tables, or behind conditions
    | Joined                             // behind INNER, LEFT or RIGHT
    | Lhs                                // a condition up to its operator
    | Rhs(like: bool, dotted: bool)      // behind an operator
    | Operated(like: bool, whole: bool)  // behind an operand
    | Shut                               // behind a comparison
    | Members                            // IN and its list
    | Listed                             // behind the list
    | Sorts(dotted: bool)                // among the fields to sort by
    | Sorted(whole: bool)                // behind one of them
    | Target                             // the table of an UPDATE
    | Inserts                            // an INSERT
    | Over                               // behind the statement

  /** The statement's first token, the place in it, and whether an ON is open. */
  datatype State = State(kind: Token, place: Place, on: bool)

  /** The conditions are over when token t comes. */
  predicate Ended(p: Place, t: Token) {
    match p
    case Operated(_, whole) => (whole || !t.DOT?) && !t.RPAR? && !t.AND? && !t.OR?
    case Shut => !t.RPAR? && !t.AND? && !t.OR?
    case Listed => !t.ID? && !t.LPAR?
    case _ => false
  }

  /** The field to sort by is over when token t comes, and has no direction. */
  predicate Undirected(p: Place, t: Token) {
    p.Sorted? && (p.whole || !t.DOT?) && !t.ASC? && !t.DESC?
  }

  /** What is written in front of token t for the item, operand or field it ends. */
  function ItemBefore(p: Place, t: Token): string {
    match p
    case Items => if t.FROM? then " " else ""
    case Operated(like, whole) => if t.DOT? && !whole then "" else if like then " TERMINATE \"`\"  " else " "
    case Sorted(_) => if Undirected(p, t) then " DESC " else ""
    case _ => ""
  }

  function OnBefore(s: State, t: Token): string {
    if Ended(s.place, t) && s.on then ") " else ""
  }

  function SelectBefore(kind: Token, t: Token): string {
    if kind.SELECT? && (t.UNION? || t.SEMI? || t.EOS?) then " FOR BROWSE ACCESS " else ""
  }

  /** What is written in front of token t for what it ends. */
  function Before(s: State, t: Token): string {
    ItemBefore(s.place, t) + (OnBefore(s, t) + SelectBefore(s.kind, t))
  }

  function Settled(s: State, t: Token): State {
    if Ended(s.place, t) then State(s.kind, Sources, false)
    else if Undirected(s.place, t) then State(s.kind, Sorts(false), s.on)
    else s
  }

  /** A table is a define; only a name without one gets a '='. */
  function Define(t: string): string {
    if t != "" && t[0] == '=' then t else "=" + t
  }

  function Plainly(t: string): string {
    if t != "" && t[0] == '=' then t[1..] else t
  }

  /** What a name is rewritten to. */
  function NameRewritten(p: Place, text: string): string {
    match p
    case Naming => ""
    case Sources => Define(text) + " " + Plainly(text) + " "
    case Joined => Define(text) + " " + Plainly(text)
    case Target => Define(text)
    case _ => text
  }

  /** What token t with its text is rewritten to. */
  function Rewritten(p: Place, t: Token, text: string): string {
    match t
    case SELECT => "SELECT "
    case DELETE => "DELETE "
    case UPDATE => "UPDATE "
    case DISTINCT => "DISTINCT "
    case FROM => "FROM "
    case WHERE => " WHERE "
    case HAVING => " HAVING "
    case ORDER => " ORDER BY "
    case UNION => " UNION "
    case SET => " SET "
    case INTO => " INSERT INTO "
    case VALUES => " VALUES "
    case INNER => text
    case LEFT => text
    case RIGHT => text
    case JOIN => " JOIN "
    case ON => " ON ("
    case AND => text + " "
    case OR => text + " "
    case NOT => if p.Rhs? then "NOT " else " NOT "
    case IN => " IN "
    case NULL => " NULL "
    case ASC => " ASC "
    case DESC => " DESC "
    case EQ => " = "
    case GT => " > "
    case LT => " < "
    case GTEQ => " >= "
    case LTEQ => " <= "
    case NEQ => " <> "
    case LIKE => " LIKE "
    case IS => " IS "
    case SPLAT => "*"
    case DOT => "."
    case COMMA => if p.Items? then ",  " else ","
    case LPAR => "("
    case RPAR => if p.Operated? || p.Shut? then ") " else ")"
    case NUM => text
    case STRLIT => "'" + text + (if p.Rhs? && p.like then "`'" else "'")
    case VAR => ":p" + if text == "" then "" else text[1..]
    case ID => NameRewritten(p, text)
    case FUNC => Define(text)
    case _ => ""
  }

  /** The place behind an operand, or p itself. */
  function BehindOperand(p: Place): Place {
    if p.Rhs? then Operated(p.like, true) else p
  }

  function BehindName(p: Place): Place {
    match p
    case Naming => Items
    case Rhs(like, dotted) => Operated(like, dotted)
    case Sorts(dotted) => Sorted(dotted)
    case Listed => Lhs
    case _ => p
  }

  function BehindDot(p: Place): Place {
    match p
    case Operated(like, _) => Rhs(like, true)
    case Sorted(_) => Sorts(true)
    case _ => p
  }

  /** The place behind token t. */
  function Behind(p: Place, kind: Token, t: Token): Place {
    match t
    case AS => Naming
    case SELECT => Items
    case UPDATE => Target
    case INSERT => Inserts
    case FROM => Sources
    case INNER => Joined
    case LEFT => Joined
    case RIGHT => Joined
    case WHERE => Lhs
    case HAVING => Lhs
    case ON => Lhs
    case AND => Lhs
    case OR => Lhs
    case SET => Lhs
    case ORDER => Sorts(false)
    case ASC => Sorts(false)
    case DESC => Sorts(false)
    case UNION => Begin
    case IN => Members
    case EQ => Rhs(false, false)
    case GT => Rhs(false, false)
    case LT => Rhs(false, false)
    case GTEQ => Rhs(false, false)
    case LTEQ => Rhs(false, false)
    case NEQ => Rhs(false, false)
    case IS => Rhs(false, false)
    case LIKE => Rhs(true, false)
    case COMMA => if kind.UPDATE? && p.Sources? then Lhs else p
    case LPAR => if p.Listed? then Lhs else p
    case RPAR => if p.Operated? then Shut else if p.Members? then Listed else p
    case DOT => BehindDot(p)
    case ID => BehindName(p)
    case NUM => BehindOperand(p)
    case STRLIT => BehindOperand(p)
    case VAR => BehindOperand(p)
    case NULL => BehindOperand(p)
    case _ => p
  }

  function Onward(s: State, t: Token): State {
    if s.place.Title? then State(s.kind, if t.AS? then Begin else Title, false)
    else if t.SEMI? then State(SEMI, Over, false)
    else State(if s.place.Begin? && !t.FROM? then t else s.kind, Behind(s.place, s.kind, t), s.on || t.ON?)
  }

  /** What is written where token c is read. */
  function Here(s: State, c: Cursor): string {
    var p := Settled(s, c.token).place;
    Before(s, c.token) + if p.Title? then "" else Rewritten(p, c.token, c.text)
  }

  function After(s: State, t: Token): State {
    Onward(Settled(s, t), t)
  }

  /** What the tokens from c on are rewritten to. */
  function Pass(src: string, c: Cursor, s: State): string
    decreases |src| - c.pos, !c.token.EOS?
  {
    if c.token.EOS? || c.pos > |src| then Before(s, EOS)
    else Here(s, c) + Pass(src, NextCursor(src, c), After(s, c.token))
  }

  /** What a whole text is rewritten to. */
  function TextPass(src: string): string {
    Pass(src, NextCursor(src, INITIAL), State(CREATE, Title, false))
  }

  // ---------------------------------------------------------------- from token to token

  /** From c the pass writes x and goes on from e. */
  predicate Writes(src: string, c: Cursor, s: State, x: string, e: Cursor, t: State) {
    Pass(src, c, s) == x + Pass(src, e, t)
  }

  lemma Together(
    src: string, c: Cursor, s: State, x: string, d: Cursor, t: State, y: string, e: Cursor, u: State)
    requires Writes(src, c, s, x, d, t) && Writes(src, d, t, y, e, u)
    ensures Writes(src, c, s, x + y, e, u)
  {
    Assoc(x, y, Pass(src, e, u));
  }

  lemma Same(src: string, c: Cursor, s: State)
    ensures Writes(src, c, s, "", c, s)
  {
  }

  lemma One(src: string, c: Cursor, s: State)
    requires NextOk(src, c) && !c.token.EOS?
    ensures Writes(src, c, s, Here(s, c), NextCursor(src, c), After(s, c.token))
  {
  }

  /** x is written whatever comes next. */
  lemma Silent(src: string, c: Cursor, s: State, x: string, t: State)
    requires c.token.EOS? || c.pos > |src| ==> Before(s, EOS) == x + Before(t, EOS)
    requires Here(s, c) == x + Here(t, c) && After(s, c.token) == After(t, c.token)
    ensures Writes(src, c, s, x, c, t)
  {
    hide NextCursor, Here, After, Before;
    Assoc(x, Here(t, c), Pass(src, NextCursor(src, c), After(s, c.token)));
  }

  /** The same once the token is settled. */
  lemma SilentHere(c: Cursor, s: State, x: string, t: State)
    requires Before(s, c.token) == x + Before(t, c.token)
    requires var p, q := Settled(s, c.token), Settled(t, c.token);
             && p.place.Title? == q.place.Title? && Onward(p, c.token) == Onward(q, c.token)
             && Rewritten(p.place, c.token, c.text) == Rewritten(q.place, c.token, c.text)
    ensures Here(s, c) == x + Here(t, c) && After(s, c.token) == After(t, c.token)
  {
    hide Before, Settled, Rewritten, Onward;
    var p := Settled(s, c.token).place;
    Assoc(x, Before(t, c.token), if p.Title? then "" else Rewritten(p, c.token, c.text));
  }

  // ---------------------------------------------------------------- names

  predicate NamePlace(p: Place) {
    p.Items? || p.Lhs? || p.Rhs? || p.Sorts?
  }

  /** Behind a part of a name, the last one if `whole`. */
  function Past(p: Place, whole: bool): Place {
    match p
    case Rhs(like, _) => Operated(like, whole)
    case Sorts(_) => Sorted(whole)
    case _ => p
  }

  /** In front of the part behind the '.'. */
  function Dotted(p: Place): Place {
    match p
    case Rhs(like, _) => Rhs(like, true)
    case Sorts(_) => Sorts(true)
    case _ => p
  }

  predicate IsDotted(p: Place) {
    (p.Rhs? || p.Sorts?) && p.dotted
  }

  lemma IdHere(s: State, c: Cursor)
    requires c.token.ID? && NamePlace(s.place)
    ensures Here(s, c) == c.text && After(s, ID) == s.(place := Past(s.place, IsDotted(s.place)))
  {
  }

  lemma DotHere(s: State, c: Cursor)
    requires c.token.DOT? && NamePlace(s.place)
    ensures var t := s.(place := Past(s.place, false));
            Here(t, c) == "." && After(t, DOT) == s.(place := Dotted(s.place))
  {
  }

  /** The tokens of a name. */
  lemma NameParts(src: string, c: Cursor, n: Name)
    requires NameEnd(src, c, n).Some?
    ensures c.token.ID? && NextOk(src, c)
    ensures var d := NextCursor(src, c);
            if d.token.DOT? then
              var f := NextCursor(src, d);
              && NextOk(src, d) && f.token.ID? && NextOk(src, f) && n == Name(Some(c.text), f.text)
              && NameEnd(src, c, n) == Some(NextCursor(src, f))
            else n == Name(None, c.text) && NameEnd(src, c, n) == Some(d)
  {
    hide NextOk, NextCursor;
    assert FieldPieces(src, c)[0] == NamePieces(n)[0];
    if NextCursor(src, c).token.DOT? {
      assert FieldPieces(src, c)[2] == NamePieces(n)[2];
    }
  }

  lemma NameWrites(src: string, c: Cursor, n: Name, s: State, e: Cursor)
    requires NameEnd(src, c, n) == Some(e) && NamePlace(s.place) && !IsDotted(s.place)
    ensures Writes(src, c, s, NameText(n), e, s.(place := Past(s.place, n.qualifier.Some?)))
    ensures n.qualifier.None? ==> !e.token.DOT?
  {
    hide NextOk, NextCursor, Pass, Writes, Here, After, NameEnd;
    NameParts(src, c, n);
    var d, t := NextCursor(src, c), s.(place := Past(s.place, false));
    One(src, c, s);
    IdHere(s, c);
    if d.token.DOT? {
      var f, u := NextCursor(src, d), s.(place := Dotted(s.place));
      One(src, d, t);
      DotHere(s, d);
      One(src, f, u);
      IdHere(u, f);
      Together(src, c, s, c.text, d, t, ".", f, u);
      Together(src, c, s, c.text + ".", f, u, f.text, e, u.(place := Past(u.place, true)));
    }
  }

  // ---------------------------------------------------------------- conditions

  lemma OperandHere(s: State, c: Cursor)
    requires s.place.Rhs? && (c.token.NUM? || c.token.STRLIT? || c.token.VAR? || c.token.NULL?)
    ensures After(s, c.token) == s.(place := Operated(s.place.like, true))
    ensures Here(s, c) == match c.token
                          case NUM => c.text
                          case STRLIT => "'" + c.text + (if s.place.like then "`" else "") + "'"
                          case VAR => ":p" + VarName(c.text)
                          case _ => " NULL "
  {
  }

  /** The '.' of a qualifier does not follow an operand. */
  lemma OperandWrites(src: string, c: Cursor, o: Operand, k: Token, like: bool, on: bool, e: Cursor) returns (
      whole: bool)
    requires OperandEnd(src, c, o) == Some(e)
    ensures whole || !e.token.DOT?
    ensures Writes(src, c, State(k, Rhs(like, false), on), OperandText(o, Renamed, like), e,
                   State(k, Operated(like, whole), on))
  {
    hide NextOk, NextCursor, Pass, Writes, Here, After, NameEnd;
    var s := State(k, Rhs(like, false), on);
    match o
    case Column(n) =>
      NameWrites(src, c, n, s, e);
      whole := n.qualifier.Some?;
    case _ =>
      One(src, c, s);
      OperandHere(s, c);
      whole := true;
  }

  lemma OperatorHere(s: State, c: Cursor)
    requires s.place.Lhs? && Operator(c.token)
    ensures Here(s, c) == OperatorText(c.token).GetOr("")
    ensures After(s, c.token) == s.(place := Rhs(c.token.LIKE?, false)) && !c.token.EOS?
  {
  }

  lemma NotHere(s: State, c: Cursor)
    requires (s.place.Lhs? || s.place.Rhs?) && c.token.NOT?
    ensures Here(s, c) == (if s.place.Rhs? then "NOT " else " NOT ") && After(s, NOT) == s
  {
  }

  /** NOT if there is one. */
  lemma NotWrites(src: string, c: Cursor, negated: bool, s: State, e: Cursor)
    requires NotEnd(src, c, negated) == Some(e) && (s.place.Lhs? || s.place.Rhs?)
    ensures Writes(src, c, s, if !negated then "" else if s.place.Rhs? then "NOT " else " NOT ", e, s)
  {
    hide NextOk, NextCursor, Pass, Writes, Here, After;
    if negated {
      One(src, c, s);
      NotHere(s, c);
    } else {
      Same(src, c, s);
    }
  }

  function Terminator(like: bool): string {
    if like then " TERMINATE \"`\"  " else " "
  }

  /** Behind an operand the pass writes what every comparison ends with. */
  lemma OperandOver(src: string, c: Cursor, k: Token, like: bool, whole: bool, on: bool)
    requires whole || !c.token.DOT?
    ensures Writes(src, c, State(k, Operated(like, whole), on), Terminator(like), c, State(k, Shut, on))
  {
    hide Pass, Writes, Here, After, Before, Terminator;
    var s, t := State(k, Operated(like, whole), on), State(k, Shut, on);
    BeforeOver(k, like, whole, on, c.token);
    BeforeOver(k, like, whole, on, EOS);
    AfterOver(k, like, whole, on, c);
    SilentHere(c, s, Terminator(like), t);
    Silent(src, c, s, Terminator(like), t);
  }

  lemma AfterOver(k: Token, like: bool, whole: bool, on: bool, c: Cursor)
    requires whole || !c.token.DOT?
    ensures var s, t := State(k, Operated(like, whole), on), State(k, Shut, on);
            var p, q := Settled(s, c.token), Settled(t, c.token);
            && p.place.Title? == q.place.Title? && Onward(p, c.token) == Onward(q, c.token)
            && Rewritten(p.place, c.token, c.text) == Rewritten(q.place, c.token, c.text)
  {
  }

  lemma BeforeOver(k: Token, like: bool, whole: bool, on: bool, t: Token)
    requires whole || !t.DOT?
    ensures Before(State(k, Operated(like, whole), on), t) == Terminator(like) + Before(State(k, Shut, on), t)
  {
    hide SelectBefore;
    var x := OnBefore(State(k, Shut, on), t) + SelectBefore(k, t);
    assert "" + x == x;
  }

  lemma CompareWrites(src: string, c: Cursor, op: Token, negated: bool, o: Operand, k: Token, on: bool, e: Cursor)
    requires CompareEnd(src, c, op, negated, o) == Some(e)
    ensures Writes(src, c, State(k, Lhs, on), SaidText(Compare(op, negated, o), Renamed), e, State(k, Shut, on))
  {
    hide NextOk, NextCursor, Pass, Writes, Here, After, Operator, OperatorText, OperandText, OperandEnd;
    CompareParts(src, c, op, negated, o);
    var s, t, d := State(k, Lhs, on), State(k, Rhs(op.LIKE?, false), on), NextCursor(src, c);
    var f := NotEnd(src, d, negated).value;
    var x := OperatorText(op).GetOr("");
    var y := if negated then "NOT " else "";
    var z := OperandText(o, Renamed, op.LIKE?);
    OperatorHere(s, c);
    One(src, c, s);
    NotWrites(src, d, negated, t, f);
    Together(src, c, s, x, d, t, y, f, t);
    var whole := OperandWrites(src, f, o, k, op.LIKE?, on, e);
    var u, v := State(k, Operated(op.LIKE?, whole), on), State(k, Shut, on);
    Together(src, c, s, x + y, f, t, z, e, u);
    OperandOver(src, e, k, op.LIKE?, whole, on);
    Together(src, c, s, x + y + z, e, u, Terminator(op.LIKE?), e, v);
    TerminatorParts(x + y + z, op.LIKE?);
  }

  lemma TerminatorParts(x: string, like: bool)
    ensures x + Terminator(like) == x + (if like then " TERMINATE \"`\" " else "") + " "
  {
    assert Terminator(like) == (if like then " TERMINATE \"`\" " else "") + " ";
    Assoc(x, if like then " TERMINATE \"`\" " else "", " ");
  }

  /** Inside the parentheses of a list, of VALUES or of the columns. */
  predicate Enclosed(p: Place) {
    p.Members? || p.Inserts?
  }

  lemma ValueHere(s: State, c: Cursor, v: Value)
    requires Enclosed(s.place) && c.token == (match v case Number(_) => NUM case Quote(_) => STRLIT case Var(_) => VAR
      case Ident(_) => ID)
    requires c.text == match v case Number(t) => t case Quote(t) => t case Var(t) => t case Ident(t) => t
    ensures Here(s, c) == ValueText(v) && After(s, c.token) == s
  {
  }

  lemma ValueWrites(src: string, c: Cursor, v: Value, s: State, e: Cursor)
    requires ValueEnd(src, c, v) == Some(e) && Enclosed(s.place)
    ensures Writes(src, c, s, ValueText(v), e, s)
  {
    hide NextOk, NextCursor, Pass, Writes, Here, After, ValueText;
    One(src, c, s);
    ValueHere(s, c, v);
  }

  /** Parentheses and commas inside them. */
  lemma EnclosedHere(s: State, c: Cursor)
    requires Enclosed(s.place)
    ensures c.token.COMMA? ==> Here(s, c) == "," && After(s, COMMA) == s
    ensures c.token.LPAR? ==> Here(s, c) == "(" && After(s, LPAR) == s
    ensures c.token.RPAR? ==>
              Here(s, c) == ")" && After(s, RPAR) == s.(place := if s.place.Members? then Listed else Inserts)
  {
  }

  lemma {:induction false} LitsWrite(src: string, c: Cursor, vs: seq<Value>, s: State, e: Cursor)
    requires LitsEnd(src, c, vs) == Some(e) && Enclosed(s.place)
    ensures Writes(src, c, s, ValuesText(vs), e, s)
    decreases |vs|
  {
    hide NextOk, NextCursor, Pass, Writes, Here, After, ValueText, ValueEnd;
    if vs == [] {
      Same(src, c, s);
    } else {
      var d := ValueEnd(src, c, vs[0]).value;
      ValueWrites(src, c, vs[0], s, d);
      if |vs| > 1 {
        var f := NextCursor(src, d);
        One(src, d, s);
        EnclosedHere(s, d);
        Together(src, c, s, ValueText(vs[0]), d, s, ",", f, s);
        LitsWrite(src, f, vs[1..], s, e);
        Together(src, c, s, ValueText(vs[0]) + ",", f, s, ValuesText(vs[1..]), e, s);
      }
    }
  }

  lemma InHere(s: State, c: Cursor)
    requires s.place.Lhs? && c.token.IN?
    ensures Here(s, c) == " IN " && After(s, IN) == s.(place := Members)
  {
  }

  lemma ListWrites(src: string, c: Cursor, vs: seq<Value>, k: Token, on: bool, e: Cursor)
    requires ListEnd(src, c, vs) == Some(e)
    ensures Writes(src, c, State(k, Lhs, on), " IN (" + ValuesText(vs) + ")", e, State(k, Listed, on))
  {
    hide NextOk, NextCursor, Pass, Writes, Here, After, ValuesText, LitsEnd;
    var s, t, u := State(k, Lhs, on), State(k, Members, on), State(k, Listed, on);
    var d := NextCursor(src, c);
    var f := NextCursor(src, d);
    var g := LitsEnd(src, f, vs).value;
    One(src, c, s);
    InHere(s, c);
    One(src, d, t);
    EnclosedHere(t, d);
    Together(src, c, s, " IN ", d, t, "(", f, t);
    assert " IN " + "(" == " IN (";
    LitsWrite(src, f, vs, t, g);
    Together(src, c, s, " IN (", f, t, ValuesText(vs), g, t);
    One(src, g, t);
    EnclosedHere(t, g);
    Together(src, c, s, " IN (" + ValuesText(vs), g, t, ")", e, u);
  }

  lemma MemberWrites(src: string, c: Cursor, negated: bool, vs: seq<Value>, k: Token, on: bool, e: Cursor)
    requires MemberEnd(src, c, negated, vs) == Some(e)
    ensures Writes(src, c, State(k, Lhs, on), SaidText(Member(negated, vs), Renamed), e, State(k, Listed, on))
  {
    hide NextOk, NextCursor, Pass, Writes, Here, After, ValuesText, ListEnd;
    var s, d := State(k, Lhs, on), NotEnd(src, c, negated).value;
    var x := if negated then " NOT " else "";
    NotWrites(src, c, negated, s, d);
    ListWrites(src, d, vs, k, on, e);
    Together(src, c, s, x, d, s, " IN (" + ValuesText(vs) + ")", e, State(k, Listed, on));
    Assoc(x, " IN (" + ValuesText(vs), ")");
    Assoc(x, " IN (", ValuesText(vs));
  }

  /** Behind what is said of a field. */
  function Said(test: Test<Operand>): Place {
    if test.Member? then Listed else Shut
  }

  lemma SaidWrites(src: string, c: Cursor, test: Test<Operand>, k: Token, on: bool, e: Cursor)
    requires SaidEnd(src, c, test) == Some(e)
    ensures Writes(src, c, State(k, Lhs, on), SaidText(test, Renamed), e, State(k, Said(test), on))
  {
    hide CompareEnd, MemberEnd, SaidText, Writes;
    match test
    case Compare(op, negated, o) => CompareWrites(src, c, op, negated, o, k, on, e);
    case Member(negated, list) => MemberWrites(src, c, negated, list, k, on, e);
  }

  lemma ParenHere(s: State, c: Cursor)
    requires s.place.Lhs? || s.place.Shut?
    ensures c.token.LPAR? && s.place.Lhs? ==> Here(s, c) == "(" && After(s, LPAR) == s
    ensures c.token.RPAR? && s.place.Shut? ==> Here(s, c) == ") " && After(s, RPAR) == s
  {
  }

  lemma OpenWrites(src: string, c: Cursor, open: bool, s: State, e: Cursor)
    requires OpenEnd(src, c, open) == Some(e) && s.place.Lhs?
    ensures Writes(src, c, s, if open then "(" else "", e, s)
  {
    hide NextOk, NextCursor, Pass, Writes, Here, After;
    Same(src, c, s);
    if open {
      One(src, c, s);
      ParenHere(s, c);
    }
  }

  lemma CloseWrites(src: string, c: Cursor, close: bool, s: State, e: Cursor)
    requires CloseEnd(src, c, close) == Some(e) && s.place.Shut?
    ensures Writes(src, c, s, if close then ") " else "", e, s)
  {
    hide NextOk, NextCursor, Pass, Writes, Here, After;
    Same(src, c, s);
    if close {
      One(src, c, s);
      ParenHere(s, c);
    }
  }

  lemma CondWrites(src: string, c: Cursor, q: Cond<Operand>, k: Token, on: bool, e: Cursor)
    requires CondEnd(src, c, q) == Some(e)
    ensures Writes(src, c, State(k, Lhs, on), CondText(q, Renamed), e, State(k, Said(q.test), on))
  {
    hide NextOk, NextCursor, Writes, NameEnd, SaidEnd, NameText, SaidText, OpenEnd, CloseEnd;
    var s, t := State(k, Lhs, on), State(k, Said(q.test), on);
    var d := OpenEnd(src, c, q.open).value;
    var f := NameEnd(src, d, q.column).value;
    var g := SaidEnd(src, f, q.test).value;
    var x, y, z := if q.open then "(" else "", NameText(q.column), SaidText(q.test, Renamed);
    OpenWrites(src, c, q.open, s, d);
    NameWrites(src, d, q.column, s, f);
    Together(src, c, s, x, d, s, y, f, s);
    SaidWrites(src, f, q.test, k, on, g);
    Together(src, c, s, x + y, f, s, z, g, t);
    if q.test.Member? {
      assert x + y + z + "" == x + y + z;
    } else {
      CloseWrites(src, g, q.close, t, e);
      Together(src, c, s, x + y + z, g, t, if q.close then ") " else "", e, t);
    }
  }

  lemma ConjHere(s: State, c: Cursor)
    requires s.place.Shut? && Conjunction(c.token)
    ensures Here(s, c) == c.text + " " && After(s, c.token) == s.(place := Lhs)
  {
  }

  /** A field or a '(' behind a list is the next condition. */
  lemma ListedOn(src: string, c: Cursor, k: Token, on: bool)
    requires !Leaves(c.token) && NextOk(src, c)
    ensures Writes(src, c, State(k, Listed, on), "", c, State(k, Lhs, on))
  {
    hide Pass, Writes;
    ListedHere(k, on, c);
    Silent(src, c, State(k, Listed, on), "", State(k, Lhs, on));
  }

  lemma ListedHere(k: Token, on: bool, c: Cursor)
    requires !Leaves(c.token)
    ensures var s, t := State(k, Listed, on), State(k, Lhs, on);
            Here(s, c) == "" + Here(t, c) && After(s, c.token) == After(t, c.token)
  {
  }

  /** What follows a condition that another one follows. */
  lemma LinkWrites(
    src: string, c: Cursor, test: Test<Operand>, link: Link, k: Token, on: bool, e: Cursor)
    requires LinkEnd(src, c, test, link) == Some(e) && (link.Bare? ==> !Leaves(e.token) && NextOk(src, e))
    ensures Writes(src, c, State(k, Said(test), on), if link.Conj? then link.text + " " else "", e, State(k, Lhs, on))
  {
    hide NextOk, NextCursor, Pass, Writes, Here, After;
    if link.Conj? {
      One(src, c, State(k, Shut, on));
      ConjHere(State(k, Shut, on), c);
    } else {
      ListedOn(src, c, k, on);
    }
  }

  lemma ChainStarts(src: string, c: Cursor, ch: Chain<Operand>, depth: nat)
    requires ChainEnd(src, c, ch, depth).Some?
    ensures !Leaves(c.token) && NextOk(src, c)
  {
    hide NextOk, NextCursor, SaidEnd, CloseEnd;
  }

  function OnText(on: bool): string {
    if on then ") " else ""
  }

  /** Behind the last condition the pass closes an ON. */
  lemma ChainOver(src: string, c: Cursor, test: Test<Operand>, k: Token, on: bool)
    requires Ends(test, c.token)
    ensures Writes(src, c, State(k, Said(test), on), OnText(on), c, State(k, Sources, false))
  {
    hide Pass, Writes, Here, After, Before, OnText;
    var s, t := State(k, Said(test), on), State(k, Sources, false);
    BeforeEnd(test, k, on, c.token);
    BeforeEnd(test, k, on, EOS);
    AfterEnd(test, k, on, c);
    SilentHere(c, s, OnText(on), t);
    Silent(src, c, s, OnText(on), t);
  }

  lemma BeforeEnd(test: Test<Operand>, k: Token, on: bool, t: Token)
    requires Ends(test, t)
    ensures Before(State(k, Said(test), on), t) == OnText(on) + Before(State(k, Sources, false), t)
  {
    hide SelectBefore;
    var x := SelectBefore(k, t);
    assert "" + (OnText(on) + x) == OnText(on) + x;
    assert "" + ("" + x) == x;
  }

  lemma AfterEnd(test: Test<Operand>, k: Token, on: bool, c: Cursor)
    requires Ends(test, c.token)
    ensures Settled(State(k, Said(test), on), c.token) == Settled(State(k, Sources, false), c.token)
  {
  }

  /** The conditions of a chain up to where nothing more is read. */
  lemma {:induction false} ChainWrites(
      src: string, c: Cursor, ch: Chain<Operand>, depth: nat, k: Token, on: bool, e: Cursor)
    requires ChainEnd(src, c, ch, depth) == Some(e)
    ensures Writes(src, c, State(k, Lhs, on), ChainText(ch, Renamed) + OnText(on), e, State(k, Sources, false))
    decreases ch
  {
    hide NextOk, NextCursor, Writes, CondEnd, LinkEnd, CondText, OnText, Ends;
    var s, t := State(k, Lhs, on), State(k, Said(ch.cond.test), on);
    var d := CondEnd(src, c, ch.cond).value;
    var x := CondText(ch.cond, Renamed);
    CondWrites(src, c, ch.cond, k, on, d);
    if ch.Last? {
      ChainOver(src, e, ch.cond.test, k, on);
      Together(src, c, s, x, e, t, OnText(on), e, State(k, Sources, false));
    } else {
      var f := LinkEnd(src, d, ch.cond.test, ch.link).value;
      var y := if ch.link.Conj? then ch.link.text + " " else "";
      var z := ChainText(ch.rest, Renamed);
      ChainStarts(src, f, ch.rest, DepthAfter(ch.cond, depth));
      LinkWrites(src, d, ch.cond.test, ch.link, k, on, f);
      Together(src, c, s, x, d, t, y, f, s);
      ChainWrites(src, f, ch.rest, DepthAfter(ch.cond, depth), k, on, e);
      Together(src, c, s, x + y, f, s, z + OnText(on), e, State(k, Sources, false));
      Assoc(x + y, z, OnText(on));
    }
  }

  lemma ClauseHere(s: State, c: Cursor)
    requires s.place.Sources? && !s.on && (c.token.WHERE? || c.token.HAVING?)
    ensures Here(s, c) == (if c.token.WHERE? then " WHERE " else " HAVING ") && After(s, c.token) == s.(place := Lhs)
  {
  }

  lemma ClauseWrites(
    src: string, c: Cursor, t: Token, w: Option<Chain<Operand>>, k: Token, lookup: map<string, nat>, n: nat,
    act: nat, e: Cursor)
    requires ClauseEnd(src, c, t, w) == Some(e) && (t.WHERE? || t.HAVING?)
    ensures var text := if t.WHERE? then " WHERE " else " HAVING ";
            Writes(src, c, State(k, Sources, false), RenderAll(ClausePieces(text, w, lookup, n, act)), e,
                   State(k, Sources, false))
  {
    hide NextOk, NextCursor, Pass, Writes, Here, After, ChainEnd, RenderAll, ChainPieces, Translate, ChainText;
    var s, text := State(k, Sources, false), if t.WHERE? then " WHERE " else " HAVING ";
    if w.None? {
      RenderNone();
      Same(src, c, s);
    } else {
      var d, u, x := NextCursor(src, c), State(k, Lhs, false), ChainText(w.value, Renamed);
      One(src, c, s);
      ClauseHere(s, c);
      ChainWrites(src, d, w.value, 0, k, false, e);
      assert x + OnText(false) == x;
      Together(src, c, s, text, d, u, x, e, s);
      RenderConcat([Word(text)], ChainPieces(Translate(w.value, lookup, n, act)));
      RenderOne(Word(text));
      TranslationRenames(w.value, lookup, n, act);
    }
  }

  // ---------------------------------------------------------------- FROM

  lemma RenderTwo(a: Piece, b: Piece)
    ensures RenderAll([a, b]) == Render(a) + Render(b)
  {
    hide RenderAll, Render;
    RenderConcat([a], [b]);
    RenderOne(a);
    RenderOne(b);
    assert [a] + [b] == [a, b];
  }

  lemma DefineRenders(t: string)
    ensures RenderAll(DefinePieces(t)) == Define(t)
  {
    hide RenderAll;
    RenderNone();
    RenderOne(Word("="));
    RenderOne(Word(t));
    RenderConcat(if t == "" || t[0] != '=' then [Word("=")] else [], [Word(t)]);
  }

  lemma TableRenders(t: string)
    ensures RenderAll(TablePieces(t)) == Define(t) + " " + Plainly(t)
  {
    hide RenderAll, DefinePieces, Define;
    DefineRenders(t);
    RenderTwo(Word(" "), Word(Plainly(t)));
    RenderConcat(DefinePieces(t), [Word(" "), Word(Plainly(t))]);
    Assoc(Define(t), " ", Plainly(t));
  }

  lemma SourceHere(s: State, c: Cursor)
    requires s.place.Sources?
    ensures c.token.ID? ==> Here(s, c) == Define(c.text) + " " + Plainly(c.text) + " " && After(s, ID) == s
    ensures c.token.COMMA? && !s.kind.UPDATE? ==> Here(s, c) == "," && After(s, COMMA) == s
  {
    hide Define, Plainly;
  }

  lemma {:induction false} TablesWrite(src: string, c: Cursor, ts: seq<string>, k: Token, e: Cursor)
    requires TablesEnd(src, c, ts) == Some(e) && !k.UPDATE?
    ensures Writes(src, c, State(k, Sources, false), RenderAll(TablesPieces(ts)), e, State(k, Sources, false))
    decreases |ts|
  {
    hide NextOk, NextCursor, Pass, Writes, Here, After, RenderAll, TablePieces, Define, Plainly;
    var s, d, x := State(k, Sources, false), NextCursor(src, c), Define(ts[0]) + " " + Plainly(ts[0]) + " ";
    var first := TablePieces(ts[0]) + [Word(" ")];
    One(src, c, s);
    SourceHere(s, c);
    TableRenders(ts[0]);
    RenderConcat(TablePieces(ts[0]), [Word(" ")]);
    RenderOne(Word(" "));
    if |ts| == 1 {
      assert TablesPieces(ts) == first;
    } else {
      var f := NextCursor(src, d);
      var more := TablesPieces(ts[1..]);
      One(src, d, s);
      SourceHere(s, d);
      Together(src, c, s, x, d, s, ",", f, s);
      TablesWrite(src, f, ts[1..], k, e);
      Together(src, c, s, x + ",", f, s, RenderAll(more), e, s);
      RenderConcat([Word(",")], more);
      RenderConcat(first, [Word(",")] + more);
      RenderOne(Word(","));
      Assoc(x, ",", RenderAll(more));
    }
  }

  lemma JoinHere(s: State, c: Cursor)
    ensures s.place.Sources? && JoinKind(c.token) ==> Here(s, c) == c.text && After(s, c.token) == s.(place := Joined)
    ensures s.place.Joined? && c.token.JOIN? ==> Here(s, c) == " JOIN " && After(s, JOIN) == s
    ensures s.place.Joined? && c.token.ID? ==> Here(s, c) == Define(c.text) + " " + Plainly(c.text) && After(s, ID) == s
    ensures s.place.Joined? && c.token.ON? ==> Here(s, c) == " ON (" && After(s, ON) == State(s.kind, Lhs, true)
  {
    hide Define, Plainly;
  }

  lemma JoinHeadRenders(j: Joining)
    ensures RenderAll(JoinHeadPieces(j)) == j.text + " JOIN " + (Define(j.table) + " " + Plainly(j.table)) + " ON ("
  {
    hide RenderAll, TablePieces, Define, Plainly;
    RenderTwo(Word(j.text), Word(" JOIN "));
    TableRenders(j.table);
    RenderTwo(Word(" ON "), Open);
    assert " ON " + "(" == " ON (";
    RenderConcat([Word(j.text), Word(" JOIN ")], TablePieces(j.table));
    RenderConcat([Word(j.text), Word(" JOIN ")] + TablePieces(j.table), [Word(" ON "), Open]);
  }

  lemma JoinHeadWrites(src: string, c: Cursor, j: Joining, k: Token, e: Cursor)
    requires JoinHeadEnd(src, c, j) == Some(e)
    ensures Writes(src, c, State(k, Sources, false), RenderAll(JoinHeadPieces(j)), e, State(k, Lhs, true))
  {
    hide NextOk, NextCursor, Pass, Writes, Here, After, RenderAll, JoinHeadPieces, Define, Plainly;
    var s, t, u := State(k, Sources, false), State(k, Joined, false), State(k, Lhs, true);
    var d := NextCursor(src, c);
    var f := NextCursor(src, d);
    var g := NextCursor(src, f);
    var table := Define(j.table) + " " + Plainly(j.table);
    One(src, c, s);
    JoinHere(s, c);
    One(src, d, t);
    JoinHere(t, d);
    One(src, f, t);
    JoinHere(t, f);
    One(src, g, t);
    JoinHere(t, g);
    Together(src, c, s, j.text, d, t, " JOIN ", f, t);
    Together(src, c, s, j.text + " JOIN ", f, t, table, g, t);
    Together(src, c, s, j.text + " JOIN " + table, g, t, " ON (", e, u);
    JoinHeadRenders(j);
  }

  lemma JoinWrites(
    src: string, c: Cursor, j: Joining, k: Token, lookup: map<string, nat>, n: nat, act: nat, e: Cursor)
    requires JoinEnd(src, c, j) == Some(e)
    ensures Writes(src, c, State(k, Sources, false), RenderAll(JoinPieces(j, lookup, n, act)), e,
                   State(k, Sources, false))
  {
    hide Writes, JoinHeadEnd, ChainEnd, RenderAll, JoinHeadPieces, ChainPieces, Translate, ChainText;
    var s, d := State(k, Sources, false), JoinHeadEnd(src, c, j).value;
    var head, chain, close := JoinHeadPieces(j), ChainPieces(Translate(j.on, lookup, n, act)), [Close, Word(" ")];
    JoinHeadWrites(src, c, j, k, d);
    ChainWrites(src, d, j.on, 0, k, true, e);
    Together(src, c, s, RenderAll(head), d, State(k, Lhs, true), ChainText(j.on, Renamed) + OnText(true), e, s);
    TranslationRenames(j.on, lookup, n, act);
    RenderTwo(Close, Word(" "));
    assert ")" + " " == ") ";
    RenderConcat(head, chain);
    RenderConcat(head + chain, close);
    Assoc(RenderAll(head), ChainText(j.on, Renamed), OnText(true));
  }

  lemma {:induction false} JoinsWrite(
    src: string, c: Cursor, js: seq<Joining>, k: Token, lookup: map<string, nat>, n: nat, act: nat, e: Cursor)
    requires JoinsEnd(src, c, js) == Some(e)
    ensures Writes(src, c, State(k, Sources, false), RenderAll(JoinsPieces(js, lookup, n, act)), e,
                   State(k, Sources, false))
    decreases |js|
  {
    hide Writes, JoinEnd, RenderAll, JoinPieces, ChainVars;
    var s := State(k, Sources, false);
    if js == [] {
      RenderNone();
      Same(src, c, s);
    } else {
      var d, m := JoinEnd(src, c, js[0]).value, n + |ChainVars(js[0].on)|;
      var first, more := JoinPieces(js[0], lookup, n, act), JoinsPieces(js[1..], lookup, m, act);
      JoinWrites(src, c, js[0], k, lookup, n, act, d);
      JoinsWrite(src, d, js[1..], k, lookup, m, act, e);
      Together(src, c, s, RenderAll(first), d, s, RenderAll(more), e, s);
      RenderConcat(first, more);
    }
  }

  lemma FromHere(s: State, c: Cursor)
    requires s.place.Begin? && c.token.FROM?
    ensures Here(s, c) == "FROM " && After(s, FROM) == s.(place := Sources)
  {
  }

  lemma BodyWrites(
    src: string, c: Cursor, b: Body, k: Token, lookup: map<string, nat>, n: nat, act: nat, e: Cursor)
    requires BodyEnd(src, c, b) == Some(e) && !k.UPDATE?
    ensures Writes(src, c, State(k, Begin, false), RenderAll(BodyPieces(b, lookup, n, act)), e,
                   State(k, Sources, false))
  {
    hide NextOk, NextCursor, Pass, Writes, Here, After, RenderAll, TablesEnd, JoinsEnd, ClauseEnd;
    hide TablesPieces, JoinsPieces, ClausePieces, JoinsVars;
    var s, t, m := State(k, Begin, false), State(k, Sources, false), n + |JoinsVars(b.from.joins)|;
    var d := NextCursor(src, c);
    var f := TablesEnd(src, d, b.from.tables).value;
    var g := JoinsEnd(src, f, b.from.joins).value;
    var tables, joins := TablesPieces(b.from.tables), JoinsPieces(b.from.joins, lookup, n, act);
    var where := ClausePieces(" WHERE ", b.where, lookup, m, act);
    One(src, c, s);
    FromHere(s, c);
    TablesWrite(src, d, b.from.tables, k, f);
    JoinsWrite(src, f, b.from.joins, k, lookup, n, act, g);
    ClauseWrites(src, g, WHERE, b.where, k, lookup, m, act, e);
    Together(src, d, t, RenderAll(tables), f, t, RenderAll(joins), g, t);
    Together(src, c, s, "FROM ", d, t, RenderAll(tables) + RenderAll(joins), g, t);
    Together(src, c, s, "FROM " + (RenderAll(tables) + RenderAll(joins)), g, t, RenderAll(where), e, t);
    RenderOne(Word("FROM "));
    RenderConcat(tables, joins);
    RenderConcat([Word("FROM ")], tables + joins);
    RenderConcat([Word("FROM ")] + (tables + joins), where);
  }

  // ---------------------------------------------------------------- SELECT

  const FIELDS := State(SELECT, Items, false)
  const NAMING := State(SELECT, Naming, false)
  const SOURCES := State(SELECT, Sources, false)
  const SORTS := State(SELECT, Sorts(false), false)

  lemma ItemsHere(c: Cursor)
    ensures c.token.DISTINCT? ==> Here(FIELDS, c) == "DISTINCT " && After(FIELDS, DISTINCT) == FIELDS
    ensures c.token.SPLAT? ==> Here(FIELDS, c) == "*" && After(FIELDS, SPLAT) == FIELDS
    ensures c.token.COMMA? ==> Here(FIELDS, c) == ",  " && After(FIELDS, COMMA) == FIELDS
    ensures c.token.AS? ==> Here(FIELDS, c) == "" && After(FIELDS, AS) == NAMING
    ensures c.token.ID? ==> Here(NAMING, c) == "" && After(NAMING, ID) == FIELDS
  {
  }

  lemma ItemWrites(src: string, c: Cursor, i: Item, e: Cursor)
    requires ItemEnd(src, c, i) == Some(e)
    ensures Writes(src, c, FIELDS, NameText(i.name), e, FIELDS)
  {
    hide NextOk, NextCursor, Pass, Writes, Here, After, NameEnd, NameText;
    var d := NameEnd(src, c, i.name).value;
    NameWrites(src, c, i.name, FIELDS, d);
    if i.alias.Some? {
      var f, t := NextCursor(src, d), NAMING;
      One(src, d, FIELDS);
      ItemsHere(d);
      One(src, f, t);
      ItemsHere(f);
      Together(src, d, FIELDS, "", f, t, "", e, FIELDS);
      Together(src, c, FIELDS, NameText(i.name), d, FIELDS, "" + "", e, FIELDS);
      assert NameText(i.name) + ("" + "") == NameText(i.name);
    }
  }

  /** The blank behind the fields. */
  lemma ItemsOver(src: string, c: Cursor)
    requires c.token.FROM? && NextOk(src, c)
    ensures Writes(src, c, FIELDS, " ", c, State(SELECT, Begin, false))
  {
    hide Pass, Writes, Here, After;
    ItemsOverHere(c);
    Silent(src, c, FIELDS, " ", State(SELECT, Begin, false));
  }

  lemma ItemsOverHere(c: Cursor)
    requires c.token.FROM?
    ensures var t := State(SELECT, Begin, false);
            Here(FIELDS, c) == " " + Here(t, c) && After(FIELDS, FROM) == After(t, FROM)
  {
  }

  lemma {:induction false} ItemsWrite(src: string, c: Cursor, items: seq<Item>, e: Cursor)
    requires ItemsEnd(src, c, items) == Some(e) && NextOk(src, e)
    ensures Writes(src, c, FIELDS, RenderAll(ItemsPieces(items)), e, State(SELECT, Begin, false))
    decreases |items|
  {
    hide NextOk, NextCursor, Pass, Writes, Here, After, ItemEnd, RenderAll, NamePieces, NameText;
    var d, x := ItemEnd(src, c, items[0]).value, NameText(items[0].name);
    ItemWrites(src, c, items[0], d);
    NameRenders(items[0].name);
    if |items| == 1 {
      ItemsOver(src, d);
      Together(src, c, FIELDS, x, d, FIELDS, " ", d, State(SELECT, Begin, false));
      RenderOne(Word(" "));
      RenderConcat(NamePieces(items[0].name), [Word(" ")]);
    } else {
      var f, more, comma := NextCursor(src, d), ItemsPieces(items[1..]), [Word(", "), Word(" ")];
      One(src, d, FIELDS);
      ItemsHere(d);
      Together(src, c, FIELDS, x, d, FIELDS, ",  ", f, FIELDS);
      ItemsWrite(src, f, items[1..], e);
      Together(src, c, FIELDS, x + ",  ", f, FIELDS, RenderAll(more), e, State(SELECT, Begin, false));
      RenderTwo(Word(", "), Word(" "));
      assert ", " + " " == ",  ";
      RenderConcat(NamePieces(items[0].name), comma);
      RenderConcat(NamePieces(items[0].name) + comma, more);
    }
  }

  lemma FieldsWrite(src: string, c: Cursor, items: seq<Item>, e: Cursor)
    requires FieldsEnd(src, c, items) == Some(e) && e.token.FROM? && NextOk(src, e)
    ensures Writes(src, c, FIELDS, RenderAll(FieldsPieces(items)), e, State(SELECT, Begin, false))
  {
    hide NextOk, NextCursor, Pass, Writes, Here, After, ItemsEnd, RenderAll, ItemsPieces;
    if items == [] {
      One(src, c, FIELDS);
      ItemsHere(c);
      ItemsOver(src, e);
      Together(src, c, FIELDS, "*", e, FIELDS, " ", e, State(SELECT, Begin, false));
      assert "*" + " " == "* ";
      RenderOne(Word("* "));
    } else {
      ItemsWrite(src, c, items, e);
    }
  }

  lemma SortHere(c: Cursor)
    ensures c.token.ORDER? ==> Here(SOURCES, c) == " ORDER BY " && After(SOURCES, ORDER) == SORTS
    ensures c.token.BY? ==> Here(SORTS, c) == "" && After(SORTS, BY) == SORTS
    ensures c.token.COMMA? ==> Here(SORTS, c) == "," && After(SORTS, COMMA) == SORTS
  {
  }

  lemma DirectionHere(c: Cursor, whole: bool)
    requires c.token.ASC? || c.token.DESC?
    ensures var s := State(SELECT, Sorted(whole), false);
            Here(s, c) == (if c.token.ASC? then " ASC " else " DESC ") && After(s, c.token) == SORTS
  {
  }

  /** A field without a direction. */
  lemma SortOver(src: string, c: Cursor, whole: bool)
    requires Undirected(Sorted(whole), c.token)
    ensures Writes(src, c, State(SELECT, Sorted(whole), false), " DESC ", c, SORTS)
  {
    hide Pass, Writes, Here, After, Before;
    var s := State(SELECT, Sorted(whole), false);
    BeforeSort(whole, c.token);
    BeforeSort(whole, EOS);
    assert Settled(s, c.token) == Settled(SORTS, c.token);
    SilentHere(c, s, " DESC ", SORTS);
    Silent(src, c, s, " DESC ", SORTS);
  }

  lemma BeforeSort(whole: bool, t: Token)
    requires Undirected(Sorted(whole), t)
    ensures Before(State(SELECT, Sorted(whole), false), t) == " DESC " + Before(SORTS, t)
  {
    hide SelectBefore;
    var x := SelectBefore(SELECT, t);
    assert "" + ("" + x) == x && "" + x == x;
  }

  lemma SortWrites(src: string, c: Cursor, o: Sort, e: Cursor)
    requires SortEnd(src, c, o) == Some(e)
    ensures Writes(src, c, SORTS, RenderAll(SortPieces(o)), e, SORTS)
  {
    hide NextOk, NextCursor, Pass, Writes, Here, After, NameEnd, RenderAll, NamePieces, NameText;
    var d, whole, x := NameEnd(src, c, o.name).value, o.name.qualifier.Some?, NameText(o.name);
    var y := if o.direction == Some(ASC) then " ASC " else " DESC ";
    NameWrites(src, c, o.name, SORTS, d);
    if o.direction.Some? {
      One(src, d, State(SELECT, Sorted(whole), false));
      DirectionHere(d, whole);
    } else {
      SortOver(src, d, whole);
    }
    Together(src, c, SORTS, x, d, State(SELECT, Sorted(whole), false), y, e, SORTS);
    NameRenders(o.name);
    RenderOne(Word(y));
    RenderConcat(NamePieces(o.name), [Word(y)]);
  }

  lemma {:induction false} SortsWrite(src: string, c: Cursor, os: seq<Sort>, e: Cursor)
    requires SortsEnd(src, c, os) == Some(e)
    ensures Writes(src, c, SORTS, RenderAll(SortsPieces(os)), e, SORTS)
    decreases |os|
  {
    hide NextOk, NextCursor, Pass, Writes, Here, After, SortEnd, RenderAll, SortPieces;
    var d := SortEnd(src, c, os[0]).value;
    var first := SortPieces(os[0]);
    SortWrites(src, c, os[0], d);
    if |os| > 1 {
      var f, more := NextCursor(src, d), SortsPieces(os[1..]);
      One(src, d, SORTS);
      SortHere(d);
      Together(src, c, SORTS, RenderAll(first), d, SORTS, ",", f, SORTS);
      SortsWrite(src, f, os[1..], e);
      Together(src, c, SORTS, RenderAll(first) + ",", f, SORTS, RenderAll(more), e, SORTS);
      RenderOne(Word(","));
      RenderConcat(first, [Word(",")]);
      RenderConcat(first + [Word(",")], more);
    }
  }

  /** Behind ORDER BY, or behind the conditions without one. */
  function Ordered(os: seq<Sort>): State {
    if os == [] then SOURCES else SORTS
  }

  lemma OrderWrites(src: string, c: Cursor, os: seq<Sort>, e: Cursor)
    requires OrderEnd(src, c, os) == Some(e)
    ensures Writes(src, c, SOURCES, RenderAll(OrderPieces(os)), e, Ordered(os))
  {
    hide NextOk, NextCursor, Pass, Writes, Here, After, SortsEnd, RenderAll, SortsPieces;
    if os == [] {
      RenderNone();
      Same(src, c, SOURCES);
    } else {
      var d := NextCursor(src, c);
      var f := NextCursor(src, d);
      One(src, c, SOURCES);
      SortHere(c);
      One(src, d, SORTS);
      SortHere(d);
      Together(src, c, SOURCES, " ORDER BY ", d, SORTS, "", f, SORTS);
      assert " ORDER BY " + "" == " ORDER BY ";
      SortsWrite(src, f, os, e);
      Together(src, c, SOURCES, " ORDER BY ", f, SORTS, RenderAll(SortsPieces(os)), e, SORTS);
      RenderOne(Word(" ORDER BY "));
      RenderConcat([Word(" ORDER BY ")], SortsPieces(os));
    }
  }

  lemma SelectHere(s: State, c: Cursor)
    requires s.place.Begin? && !s.on && c.token.SELECT?
    ensures Here(s, c) == "SELECT " && After(s, SELECT) == FIELDS
  {
  }

  lemma SelectHeadWrites(src: string, c: Cursor, distinct: bool, k: Token, e: Cursor)
    requires SelectHeadEnd(src, c, distinct) == Some(e)
    ensures Writes(src, c, State(k, Begin, false), RenderAll(SelectHeadPieces(distinct)), e, FIELDS)
  {
    hide NextOk, NextCursor, Pass, Writes, Here, After, RenderAll;
    var s, d := State(k, Begin, false), NextCursor(src, c);
    One(src, c, s);
    SelectHere(s, c);
    RenderOne(Word("SELECT "));
    if distinct {
      One(src, d, FIELDS);
      ItemsHere(d);
      Together(src, c, s, "SELECT ", d, FIELDS, "DISTINCT ", e, FIELDS);
      RenderTwo(Word("SELECT "), Word("DISTINCT "));
    }
  }

  /** From the fields to ORDER BY. */
  lemma SelectBodyWrites(src: string, c: Cursor, q: Query, lookup: map<string, nat>, act: nat, e: Cursor)
    requires SelectBodyEnd(src, c, q) == Some(e)
    ensures Writes(src, c, FIELDS, RenderAll(SelectBodyPieces(q, lookup, act)), e, Ordered(q.order))
  {
    hide NextOk, Writes, FieldsEnd, FromEnd, ClauseEnd, OrderEnd, RenderAll, FieldsPieces, BodyPieces, OrderPieces;
    hide ClausePieces, BodyVars, Ordered;
    var d, n := FieldsEnd(src, c, q.items).value, |BodyVars(q.body)|;
    var f := BodyEnd(src, d, q.body).value;
    var g := ClauseEnd(src, f, HAVING, q.having).value;
    var fields, body := FieldsPieces(q.items), BodyPieces(q.body, lookup, 0, act);
    var having, order := ClausePieces(" HAVING ", q.having, lookup, n, act), OrderPieces(q.order);
    var s, t := State(SELECT, Begin, false), Ordered(q.order);
    FromTaken(src, d, q.body.from);
    FieldsWrite(src, c, q.items, d);
    BodyWrites(src, d, q.body, SELECT, lookup, 0, act, f);
    ClauseWrites(src, f, HAVING, q.having, SELECT, lookup, n, act, g);
    OrderWrites(src, g, q.order, e);
    Together(src, f, SOURCES, RenderAll(having), g, SOURCES, RenderAll(order), e, t);
    Together(src, d, s, RenderAll(body), f, SOURCES, RenderAll(having) + RenderAll(order), e, t);
    Together(src, c, FIELDS, RenderAll(fields), d, s, RenderAll(body) + (RenderAll(having) + RenderAll(order)), e, t);
    RenderConcat(having, order);
    RenderConcat(body, having + order);
    RenderConcat(fields, body + (having + order));
  }

  lemma FromTaken(src: string, c: Cursor, f: From)
    requires FromEnd(src, c, f).Some?
    ensures c.token.FROM? && NextOk(src, c)
  {
    hide NextOk, NextCursor;
  }

  /** The statement is over: nothing or a ';' comes. */
  predicate Closing(t: Token) {
    t.EOS? || t.SEMI?
  }

  const OVER := State(SEMI, Over, false)

  lemma UnionHere(os: seq<Sort>, c: Cursor)
    requires c.token.UNION?
    ensures Here(Ordered(os), c) == " FOR BROWSE ACCESS " + " UNION "
    ensures After(Ordered(os), UNION) == State(SELECT, Begin, false)
  {
  }

  lemma FinalHere(os: seq<Sort>, c: Cursor)
    ensures Before(Ordered(os), EOS) == " FOR BROWSE ACCESS " + Before(OVER, EOS)
    ensures c.token.SEMI? ==> Here(Ordered(os), c) == " FOR BROWSE ACCESS " + Here(OVER, c)
    ensures After(Ordered(os), SEMI) == After(OVER, SEMI)
  {
  }

  lemma BrowseWrites(src: string, c: Cursor, os: seq<Sort>)
    requires Closing(c.token)
    ensures Writes(src, c, Ordered(os), " FOR BROWSE ACCESS ", c, OVER)
  {
    hide Here, After, Before, Ordered, NextCursor;
    FinalHere(os, c);
    if c.token.SEMI? {
      Silent(src, c, Ordered(os), " FOR BROWSE ACCESS ", OVER);
    }
  }

  lemma {:induction false} QueryWrites(
    src: string, c: Cursor, q: Query, k: Token, lookup: map<string, nat>, act: nat, e: Cursor)
    requires QueryEnd(src, c, q) == Some(e) && Closing(e.token)
    ensures Writes(src, c, State(k, Begin, false), RenderAll(QueryPieces(q, lookup, act)), e, OVER)
    decreases q
  {
    hide NextOk, NextCursor, Pass, Writes, Here, After, Before, Ordered, SelectHeadEnd, SelectBodyEnd, RenderAll;
    hide SelectHeadPieces, SelectBodyPieces;
    var s, t, d := State(k, Begin, false), Ordered(q.order), SelectHeadEnd(src, c, q.distinct).value;
    var f := SelectBodyEnd(src, d, q).value;
    var head, body, rest := SelectHeadPieces(q.distinct), SelectBodyPieces(q, lookup, act),
      UnionPieces(q.union, lookup, act);
    SelectHeadWrites(src, c, q.distinct, k, d);
    SelectBodyWrites(src, d, q, lookup, act, f);
    var browse := [Word(" FOR BROWSE ACCESS ")];
    RenderOne(Word(" FOR BROWSE ACCESS "));
    if q.union.None? {
      BrowseWrites(src, f, q.order);
      assert rest == browse;
    } else {
      var g, u, more := NextCursor(src, f), State(SELECT, Begin, false), QueryPieces(q.union.value, lookup, act + 1);
      One(src, f, t);
      UnionHere(q.order, f);
      QueryWrites(src, g, q.union.value, SELECT, lookup, act + 1, e);
      Together(src, f, t, " FOR BROWSE ACCESS " + " UNION ", g, u, RenderAll(more), e, OVER);
      RenderOne(Word(" UNION "));
      RenderConcat([Word(" UNION ")], more);
      RenderConcat(browse, [Word(" UNION ")] + more);
      Assoc(" FOR BROWSE ACCESS ", " UNION ", RenderAll(more));
    }
    Together(src, d, FIELDS, RenderAll(body), f, t, RenderAll(rest), e, OVER);
    Together(src, c, s, RenderAll(head), d, FIELDS, RenderAll(body) + RenderAll(rest), e, OVER);
    RenderConcat(body, rest);
    RenderConcat(head, body + rest);
  }

  // ---------------------------------------------------------------- DELETE and UPDATE

  lemma StatementHere(s: State, c: Cursor)
    requires s.place.Begin? && !s.on && !s.kind.SELECT?
    ensures c.token.DELETE? ==> Here(s, c) == "DELETE " && After(s, DELETE) == State(DELETE, Begin, false)
    ensures c.token.UPDATE? ==> Here(s, c) == "UPDATE " && After(s, UPDATE) == TARGET
    ensures c.token.INSERT? ==> Here(s, c) == "" && After(s, INSERT) == State(INSERT, Inserts, false)
  {
  }

  /** Behind a statement that is no SELECT nothing is written. */
  lemma Closes(src: string, c: Cursor, k: Token, p: Place)
    requires Closing(c.token) && !k.SELECT? && (p.Sources? || p.Inserts?)
    ensures Writes(src, c, State(k, p, false), "", c, OVER)
  {
    hide Here, After, Before, NextCursor;
    ClosesHere(k, p, c);
    if c.token.SEMI? {
      Silent(src, c, State(k, p, false), "", OVER);
    }
  }

  lemma ClosesHere(k: Token, p: Place, c: Cursor)
    requires Closing(c.token) && !k.SELECT? && (p.Sources? || p.Inserts?)
    ensures var s := State(k, p, false);
            && Before(s, EOS) == "" + Before(OVER, EOS)
            && (c.token.SEMI? ==> Here(s, c) == "" + Here(OVER, c) && After(s, SEMI) == After(OVER, SEMI))
  {
  }

  lemma DeleteWrites(src: string, c: Cursor, b: Body, k: Token, lookup: map<string, nat>, e: Cursor)
    requires DeleteEnd(src, c, b) == Some(e) && Closing(e.token) && !k.SELECT?
    ensures Writes(src, c, State(k, Begin, false), RenderAll([Word("DELETE ")] + BodyPieces(b, lookup, 0, 0)), e, OVER)
  {
    hide NextOk, NextCursor, Pass, Writes, Here, After, BodyEnd, RenderAll, BodyPieces;
    var s, t, d, body := State(k, Begin, false), State(DELETE, Begin, false), NextCursor(src, c),
      BodyPieces(b, lookup, 0, 0);
    One(src, c, s);
    StatementHere(s, c);
    BodyWrites(src, d, b, DELETE, lookup, 0, 0, e);
    Together(src, c, s, "DELETE ", d, t, RenderAll(body), e, State(DELETE, Sources, false));
    Closes(src, e, DELETE, Sources);
    Together(src, c, s, "DELETE " + RenderAll(body), e, State(DELETE, Sources, false), "", e, OVER);
    assert "DELETE " + RenderAll(body) + "" == "DELETE " + RenderAll(body);
    RenderOne(Word("DELETE "));
    RenderConcat([Word("DELETE ")], body);
  }

  const TARGET := State(UPDATE, Target, false)
  const LHS := State(UPDATE, Lhs, false)
  const RHS := State(UPDATE, Rhs(false, false), false)
  const SHUT := State(UPDATE, Shut, false)

  lemma SettingHere(c: Cursor)
    ensures c.token.EQ? ==> Here(LHS, c) == " = " && After(LHS, EQ) == RHS
    ensures c.token.COMMA? ==> Here(SHUT, c) == "," && After(SHUT, COMMA) == LHS
    ensures c.token.SET? ==> Here(TARGET, c) == " SET " && After(TARGET, SET) == LHS
    ensures c.token.ID? ==> Here(TARGET, c) == Define(c.text) && After(TARGET, ID) == TARGET
  {
    hide Define;
  }

  lemma SetValueWrites(src: string, c: Cursor, v: Value, e: Cursor)
    requires ValueEnd(src, c, v) == Some(e) && !v.Ident?
    ensures Writes(src, c, RHS, ValueText(v) + " ", e, SHUT)
  {
    hide NextOk, NextCursor, Pass, Writes, Here, After;
    var t := State(UPDATE, Operated(false, true), false);
    One(src, c, RHS);
    OperandHere(RHS, c);
    assert v.Quote? ==> "'" + v.text + "" + "'" == "'" + v.text + "'";
    OperandOver(src, e, UPDATE, false, true, false);
    Together(src, c, RHS, ValueText(v), e, t, " ", e, SHUT);
  }

  lemma SettingRenders(g: Setting)
    ensures RenderAll(SettingPieces(g)) == NameText(g.name) + " = " + (ValueText(g.value) + " ")
  {
    hide RenderAll, NamePieces, NameText, ValuePiece, ValueText;
    NameRenders(g.name);
    RenderOne(Word(" = "));
    ValueRenders(g.value);
    RenderOne(Word(" "));
    RenderConcat([ValuePiece(g.value)], [Word(" ")]);
    RenderConcat([Word(" = ")], [ValuePiece(g.value)] + [Word(" ")]);
    RenderConcat(NamePieces(g.name), [Word(" = ")] + ([ValuePiece(g.value)] + [Word(" ")]));
    assert [Word(" = ")] + ([ValuePiece(g.value)] + [Word(" ")]) == [Word(" = "), ValuePiece(g.value), Word(" ")];
    Assoc(NameText(g.name), " = ", ValueText(g.value) + " ");
  }

  lemma SettingWrites(src: string, c: Cursor, g: Setting, e: Cursor)
    requires SettingEnd(src, c, g) == Some(e)
    ensures Writes(src, c, LHS, RenderAll(SettingPieces(g)), e, SHUT)
  {
    hide NextOk, NextCursor, Pass, Writes, Here, After, NameEnd, ValueEnd, NameText, ValueText, RenderAll;
    hide SettingPieces;
    var d := NameEnd(src, c, g.name).value;
    var f, x := NextCursor(src, d), NameText(g.name);
    NameWrites(src, c, g.name, LHS, d);
    One(src, d, LHS);
    SettingHere(d);
    Together(src, c, LHS, x, d, LHS, " = ", f, RHS);
    SetValueWrites(src, f, g.value, e);
    Together(src, c, LHS, x + " = ", f, RHS, ValueText(g.value) + " ", e, SHUT);
    SettingRenders(g);
  }

  lemma {:induction false} SettingsWrite(src: string, c: Cursor, gs: seq<Setting>, e: Cursor)
    requires SettingsEnd(src, c, gs) == Some(e)
    ensures Writes(src, c, LHS, RenderAll(SettingsPieces(gs)), e, SHUT)
    decreases |gs|
  {
    hide NextOk, NextCursor, Pass, Writes, Here, After, SettingEnd, RenderAll, SettingPieces;
    var d, first := SettingEnd(src, c, gs[0]).value, SettingPieces(gs[0]);
    SettingWrites(src, c, gs[0], d);
    if |gs| > 1 {
      var f, more := NextCursor(src, d), SettingsPieces(gs[1..]);
      One(src, d, SHUT);
      SettingHere(d);
      Together(src, c, LHS, RenderAll(first), d, SHUT, ",", f, LHS);
      SettingsWrite(src, f, gs[1..], e);
      Together(src, c, LHS, RenderAll(first) + ",", f, LHS, RenderAll(more), e, SHUT);
      RenderOne(Word(","));
      RenderConcat(first, [Word(",")]);
      RenderConcat(first + [Word(",")], more);
    }
  }

  /** The SET list, WHERE and the end of the statement. */
  lemma UpdateTailWrites(src: string, c: Cursor, u: Updating, lookup: map<string, nat>, e: Cursor)
    requires UpdateTailEnd(src, c, u) == Some(e) && Closing(e.token)
    ensures Writes(src, c, LHS, RenderAll(UpdateTailPieces(u, lookup, 0)), e, OVER)
  {
    hide NextOk, NextCursor, Writes, SettingsEnd, RenderAll, SettingsPieces, ClausePieces, ChainEnd;
    var d, t := SettingsEnd(src, c, u.settings).value, State(UPDATE, Sources, false);
    var x, y := SettingsPieces(u.settings), ClausePieces(" WHERE ", u.where, lookup, 0, 0);
    SettingsWrite(src, c, u.settings, d);
    ChainOver(src, d, Compare(EQ, false, Null), UPDATE, false);
    Together(src, c, LHS, RenderAll(x), d, SHUT, "", d, t);
    assert RenderAll(x) + "" == RenderAll(x);
    ClauseWrites(src, d, WHERE, u.where, UPDATE, lookup, 0, 0, e);
    Together(src, c, LHS, RenderAll(x), d, t, RenderAll(y), e, t);
    Closes(src, e, UPDATE, Sources);
    Together(src, c, LHS, RenderAll(x) + RenderAll(y), e, t, "", e, OVER);
    assert RenderAll(x) + RenderAll(y) + "" == RenderAll(x) + RenderAll(y);
    RenderConcat(x, y);
  }

  lemma UpdateHeadRenders(table: string)
    ensures RenderAll(UpdateHeadPieces(table)) == "UPDATE " + Define(table) + " SET "
  {
    hide RenderAll, DefinePieces, Define;
    RenderOne(Word("UPDATE "));
    DefineRenders(table);
    RenderOne(Word(" SET "));
    RenderConcat([Word("UPDATE ")], DefinePieces(table));
    RenderConcat([Word("UPDATE ")] + DefinePieces(table), [Word(" SET ")]);
  }

  lemma UpdateHeadWrites(src: string, c: Cursor, table: string, k: Token, e: Cursor)
    requires UpdateHeadEnd(src, c, table) == Some(e) && !k.SELECT?
    ensures Writes(src, c, State(k, Begin, false), RenderAll(UpdateHeadPieces(table)), e, LHS)
  {
    hide NextOk, NextCursor, Pass, Writes, Here, After, RenderAll, UpdateHeadPieces, Define;
    var s, t, d := State(k, Begin, false), TARGET, NextCursor(src, c);
    var f := NextCursor(src, d);
    One(src, c, s);
    StatementHere(s, c);
    One(src, d, t);
    SettingHere(d);
    One(src, f, t);
    SettingHere(f);
    Together(src, c, s, "UPDATE ", d, t, Define(table), f, t);
    Together(src, c, s, "UPDATE " + Define(table), f, t, " SET ", e, LHS);
    UpdateHeadRenders(table);
  }

  lemma UpdateWrites(src: string, c: Cursor, u: Updating, k: Token, lookup: map<string, nat>, e: Cursor)
    requires UpdateEnd(src, c, u) == Some(e) && Closing(e.token) && !k.SELECT?
    ensures Writes(src, c, State(k, Begin, false),
              RenderAll(UpdateHeadPieces(u.table) + UpdateTailPieces(u, lookup, 0)), e, OVER)
  {
    hide Writes, UpdateHeadEnd, UpdateTailEnd, RenderAll, UpdateHeadPieces, UpdateTailPieces;
    var d, x, y := UpdateHeadEnd(src, c, u.table).value, UpdateHeadPieces(u.table), UpdateTailPieces(u, lookup, 0);
    UpdateHeadWrites(src, c, u.table, k, d);
    UpdateTailWrites(src, d, u, lookup, e);
    Together(src, c, State(k, Begin, false), RenderAll(x), d, LHS, RenderAll(y), e, OVER);
    RenderConcat(x, y);
  }

  // ---------------------------------------------------------------- INSERT

  const INSERTS := State(INSERT, Inserts, false)

  lemma InsertHere(c: Cursor)
    ensures c.token.INTO? ==> Here(INSERTS, c) == " INSERT INTO " && After(INSERTS, INTO) == INSERTS
    ensures c.token.FUNC? ==> Here(INSERTS, c) == Define(c.text) && After(INSERTS, FUNC) == INSERTS
    ensures c.token.ID? ==> Here(INSERTS, c) == c.text && After(INSERTS, ID) == INSERTS
    ensures c.token.VALUES? ==> Here(INSERTS, c) == " VALUES " && After(INSERTS, VALUES) == INSERTS
  {
    hide Define;
  }

  lemma {:induction false} ColumnsWrite(src: string, c: Cursor, cs: seq<string>, e: Cursor)
    requires ColumnsEnd(src, c, cs) == Some(e)
    ensures Writes(src, c, INSERTS, RenderAll(ColumnsPieces(cs)), e, INSERTS)
    decreases |cs|
  {
    hide NextOk, NextCursor, Pass, Writes, Here, After, RenderAll;
    var d := NextCursor(src, c);
    One(src, c, INSERTS);
    InsertHere(c);
    RenderOne(Word(cs[0]));
    if |cs| > 1 {
      var f, more := NextCursor(src, d), ColumnsPieces(cs[1..]);
      One(src, d, INSERTS);
      EnclosedHere(INSERTS, d);
      Together(src, c, INSERTS, cs[0], d, INSERTS, ",", f, INSERTS);
      ColumnsWrite(src, f, cs[1..], e);
      Together(src, c, INSERTS, cs[0] + ",", f, INSERTS, RenderAll(more), e, INSERTS);
      RenderTwo(Word(cs[0]), Word(","));
      RenderConcat([Word(cs[0]), Word(",")], more);
    }
  }

  lemma {:induction false} ValuesWrite(src: string, c: Cursor, vs: seq<Value>, e: Cursor)
    requires ValuesEnd(src, c, vs) == Some(e)
    ensures Writes(src, c, INSERTS, ValuesText(vs), e, INSERTS)
    decreases |vs|
  {
    hide NextOk, NextCursor, Pass, Writes, Here, After, ValueText, ValueEnd;
    var d := ValueEnd(src, c, vs[0]).value;
    ValueWrites(src, c, vs[0], INSERTS, d);
    if |vs| > 1 {
      var f := NextCursor(src, d);
      One(src, d, INSERTS);
      EnclosedHere(INSERTS, d);
      Together(src, c, INSERTS, ValueText(vs[0]), d, INSERTS, ",", f, INSERTS);
      ValuesWrite(src, f, vs[1..], e);
      Together(src, c, INSERTS, ValueText(vs[0]) + ",", f, INSERTS, ValuesText(vs[1..]), e, INSERTS);
    }
  }

  lemma InsertHeadRenders(table: string)
    ensures RenderAll(InsertHeadPieces(table)) == " INSERT INTO " + Define(table) + "("
  {
    hide RenderAll, DefinePieces, Define;
    RenderOne(Word(" INSERT INTO "));
    DefineRenders(table);
    RenderOne(Open);
    RenderConcat([Word(" INSERT INTO ")], DefinePieces(table));
    RenderConcat([Word(" INSERT INTO ")] + DefinePieces(table), [Open]);
  }

  lemma InsertHeadWrites(src: string, c: Cursor, table: string, k: Token, e: Cursor)
    requires InsertHeadEnd(src, c, table) == Some(e) && !k.SELECT?
    ensures Writes(src, c, State(k, Begin, false), RenderAll(InsertHeadPieces(table)), e, INSERTS)
  {
    hide NextOk, NextCursor, Pass, Writes, Here, After, RenderAll, InsertHeadPieces, Define;
    var s, d := State(k, Begin, false), NextCursor(src, c);
    var f := NextCursor(src, d);
    var g := NextCursor(src, f);
    One(src, c, s);
    StatementHere(s, c);
    One(src, d, INSERTS);
    InsertHere(d);
    One(src, f, INSERTS);
    InsertHere(f);
    One(src, g, INSERTS);
    EnclosedHere(INSERTS, g);
    Together(src, c, s, "", d, INSERTS, " INSERT INTO ", f, INSERTS);
    assert "" + " INSERT INTO " == " INSERT INTO ";
    Together(src, c, s, " INSERT INTO ", f, INSERTS, Define(table), g, INSERTS);
    Together(src, c, s, " INSERT INTO " + Define(table), g, INSERTS, "(", e, INSERTS);
    InsertHeadRenders(table);
  }

  lemma ValuesHeadWrites(src: string, c: Cursor, e: Cursor)
    requires ValuesHeadEnd(src, c) == Some(e)
    ensures Writes(src, c, INSERTS, ") VALUES (", e, INSERTS)
  {
    hide NextOk, NextCursor, Pass, Writes, Here, After;
    var d := NextCursor(src, c);
    var f := NextCursor(src, d);
    One(src, c, INSERTS);
    EnclosedHere(INSERTS, c);
    One(src, d, INSERTS);
    InsertHere(d);
    One(src, f, INSERTS);
    EnclosedHere(INSERTS, f);
    Together(src, c, INSERTS, ")", d, INSERTS, " VALUES ", f, INSERTS);
    Together(src, c, INSERTS, ")" + " VALUES ", f, INSERTS, "(", e, INSERTS);
    assert ")" + " VALUES " + "(" == ") VALUES (";
  }

  lemma InsertTailRenders(vs: seq<Value>)
    ensures RenderAll(InsertTailPieces(vs)) == ") VALUES (" + ValuesText(vs) + ")"
  {
    hide RenderAll, ValuesPieces, ValuesText;
    RenderOne(Close);
    RenderTwo(Word(" VALUES "), Open);
    RenderConcat([Close], [Word(" VALUES "), Open]);
    assert [Close] + [Word(" VALUES "), Open] == [Close, Word(" VALUES "), Open];
    assert ")" + (" VALUES " + "(") == ") VALUES (";
    ValuesRender(vs);
    RenderConcat(ValuesPieces(vs), [Close]);
    RenderConcat([Close, Word(" VALUES "), Open], ValuesPieces(vs) + [Close]);
    Assoc(") VALUES (", ValuesText(vs), ")");
  }

  lemma InsertTailWrites(src: string, c: Cursor, vs: seq<Value>, e: Cursor)
    requires InsertTailEnd(src, c, vs) == Some(e)
    ensures Writes(src, c, INSERTS, RenderAll(InsertTailPieces(vs)), e, INSERTS)
  {
    hide NextOk, NextCursor, Pass, Writes, Here, After, ValuesHeadEnd, ValuesEnd, RenderAll, InsertTailPieces;
    hide ValuesText;
    var d := ValuesHeadEnd(src, c).value;
    var f := ValuesEnd(src, d, vs).value;
    ValuesHeadWrites(src, c, d);
    ValuesWrite(src, d, vs, f);
    One(src, f, INSERTS);
    EnclosedHere(INSERTS, f);
    Together(src, c, INSERTS, ") VALUES (", d, INSERTS, ValuesText(vs), f, INSERTS);
    Together(src, c, INSERTS, ") VALUES (" + ValuesText(vs), f, INSERTS, ")", e, INSERTS);
    InsertTailRenders(vs);
  }

  lemma InsertWrites(src: string, c: Cursor, i: Insertion, k: Token, e: Cursor)
    requires InsertEnd(src, c, i) == Some(e) && Closing(e.token) && !k.SELECT?
    ensures Writes(src, c, State(k, Begin, false), RenderAll(InsertPieces(i)), e, OVER)
  {
    hide Writes, InsertHeadEnd, ColumnsEnd, InsertTailEnd, RenderAll, InsertHeadPieces, ColumnsPieces, InsertTailPieces;
    var s, d := State(k, Begin, false), InsertHeadEnd(src, c, i.table).value;
    var f := ColumnsEnd(src, d, i.columns).value;
    var x, y, z := InsertHeadPieces(i.table), ColumnsPieces(i.columns), InsertTailPieces(i.values);
    InsertHeadWrites(src, c, i.table, k, d);
    ColumnsWrite(src, d, i.columns, f);
    InsertTailWrites(src, f, i.values, e);
    Closes(src, e, INSERT, Inserts);
    Together(src, f, INSERTS, RenderAll(z), e, INSERTS, "", e, OVER);
    assert RenderAll(z) + "" == RenderAll(z);
    Together(src, d, INSERTS, RenderAll(y), f, INSERTS, RenderAll(z), e, OVER);
    Together(src, c, s, RenderAll(x), d, INSERTS, RenderAll(y) + RenderAll(z), e, OVER);
    RenderConcat(y, z);
    RenderConcat(x, y + z);
  }

  // ---------------------------------------------------------------- procedures

  lemma StatementWrites(src: string, c: Cursor, t: Statement, lookup: map<string, nat>, k: Token, e: Cursor)
    requires StatementEnd(src, c, t) == Some(e) && Closing(e.token) && !k.SELECT?
    ensures Writes(src, c, State(k, Begin, false), RenderAll(StatementPieces(t, lookup)), e, OVER)
  {
    hide Writes, QueryEnd, DeleteEnd, UpdateEnd, InsertEnd, RenderAll, QueryPieces, BodyPieces, InsertPieces;
    hide UpdateHeadPieces, UpdateTailPieces;
    match t
    case Select(q) => QueryWrites(src, c, q, k, lookup, 1, e);
    case Delete(b) => DeleteWrites(src, c, b, k, lookup, e);
    case Update(u) => UpdateWrites(src, c, u, k, lookup, e);
    case Insert(i) => InsertWrites(src, c, i, k, e);
  }

  const TITLE := State(CREATE, Title, false)
  const BEGIN := State(CREATE, Begin, false)

  /** In front of the statement nothing is written. */
  lemma TitleToken(src: string, c: Cursor)
    requires NextOk(src, c) && !c.token.EOS?
    ensures Writes(src, c, TITLE, "", NextCursor(src, c), if c.token.AS? then BEGIN else TITLE)
  {
    hide NextOk, NextCursor, Pass, Writes;
    One(src, c, TITLE);
  }

  lemma Quiet(src: string, c: Cursor, s: State, d: Cursor, t: State, e: Cursor, u: State)
    requires Writes(src, c, s, "", d, t) && Writes(src, d, t, "", e, u)
    ensures Writes(src, c, s, "", e, u)
  {
  }

  lemma TitleWrites(src: string, p: Procedure, e: Cursor)
    requires TitleEnd(src, INITIAL, p) == Some(e)
    ensures Writes(src, NextCursor(src, INITIAL), TITLE, "", e, TITLE) && !e.token.AS? && !e.token.EOS?
  {
    hide NextOk, NextCursor, Writes;
    var a := NextCursor(src, INITIAL);
    var b := NextCursor(src, a);
    var c := NextCursor(src, b);
    var d := NextCursor(src, c);
    TitleToken(src, a);
    TitleToken(src, b);
    TitleToken(src, c);
    TitleToken(src, d);
    Quiet(src, a, TITLE, b, TITLE, c, TITLE);
    Quiet(src, a, TITLE, c, TITLE, d, TITLE);
    Quiet(src, a, TITLE, d, TITLE, e, TITLE);
  }

  lemma TypeWrites(src: string, c: Cursor, t: Type, e: Cursor)
    requires TypeEnd(src, c, t) == Some(e)
    ensures Writes(src, c, TITLE, "", e, TITLE)
  {
    hide NextOk, NextCursor, Writes;
    TitleToken(src, c);
    if t.Chars? {
      var d := NextCursor(src, c);
      var f := NextCursor(src, d);
      var g := NextCursor(src, f);
      TitleToken(src, d);
      TitleToken(src, f);
      TitleToken(src, g);
      Quiet(src, c, TITLE, d, TITLE, f, TITLE);
      Quiet(src, c, TITLE, f, TITLE, g, TITLE);
      Quiet(src, c, TITLE, g, TITLE, e, TITLE);
    }
  }

  lemma {:induction false} DeclarationsWrite(src: string, c: Cursor, ds: seq<Declaration>, e: Cursor)
    requires DeclarationsEnd(src, c, ds) == Some(e)
    ensures Writes(src, c, TITLE, "", e, TITLE)
    decreases |ds|
  {
    hide NextOk, NextCursor, Writes, TypeEnd;
    if ds == [] {
      Same(src, c, TITLE);
    } else {
      var d := NextCursor(src, c);
      var f := TypeEnd(src, d, ds[0].typ).value;
      TitleToken(src, c);
      TypeWrites(src, d, ds[0].typ, f);
      Quiet(src, c, TITLE, d, TITLE, f, TITLE);
      var g := if f.token.COMMA? then NextCursor(src, f) else f;
      if f.token.COMMA? {
        TitleToken(src, f);
        Quiet(src, c, TITLE, f, TITLE, g, TITLE);
      }
      DeclarationsWrite(src, g, ds[1..], e);
      Quiet(src, c, TITLE, g, TITLE, e, TITLE);
    }
  }

  lemma ParamsWrite(src: string, c: Cursor, p: Procedure, e: Cursor)
    requires ParamsEnd(src, c, p) == Some(e) && !c.token.AS? && !c.token.EOS?
    ensures Writes(src, c, TITLE, "", e, BEGIN)
  {
    hide NextOk, NextCursor, Writes, DeclarationsEnd;
    var a := NextCursor(src, c);
    var b := OpenEnd(src, a, p.parens).value;
    var d := DeclarationsEnd(src, b, p.params).value;
    var f := if p.parens then NextCursor(src, d) else d;
    TitleToken(src, c);
    if p.parens {
      TitleToken(src, a);
      TitleToken(src, d);
      Quiet(src, c, TITLE, a, TITLE, b, TITLE);
    }
    DeclarationsWrite(src, b, p.params, d);
    Quiet(src, c, TITLE, b, TITLE, d, TITLE);
    if p.parens {
      Quiet(src, c, TITLE, d, TITLE, f, TITLE);
    }
    TitleToken(src, f);
    Quiet(src, c, TITLE, f, TITLE, e, BEGIN);
  }

  lemma PassOver(src: string, c: Cursor)
    requires Finished(src, c)
    ensures Pass(src, c, OVER) == ""
  {
    hide NextCursor;
  }

  /** A procedure that the whole text spells is translated token by token: its text is what
      the tokens are rewritten to. */
  lemma ProcedureRewritten(src: string, p: Procedure, lookup: map<string, nat>)
    requires ProcedureEnd(src, p).Some? && Finished(src, ProcedureEnd(src, p).value)
    ensures RenderAll(StatementPieces(p.statement, lookup)) == TextPass(src)
  {
    hide NextOk, NextCursor, Writes, TitleEnd, ParamsEnd, StatementEnd, RenderAll, StatementPieces;
    var a, b, e := NextCursor(src, INITIAL), TitleEnd(src, INITIAL, p).value, ProcedureEnd(src, p).value;
    var d, x := ParamsEnd(src, b, p).value, RenderAll(StatementPieces(p.statement, lookup));
    TitleWrites(src, p, b);
    ParamsWrite(src, b, p, d);
    Quiet(src, a, TITLE, b, TITLE, d, BEGIN);
    StatementWrites(src, d, p.statement, lookup, CREATE, e);
    Together(src, a, TITLE, "", d, BEGIN, x, e, OVER);
    PassOver(src, e);
    WritesAll(src, a, TITLE, "" + x, e, OVER);
    assert "" + x == x;
  }

  lemma WritesAll(src: string, c: Cursor, s: State, x: string, e: Cursor, t: State)
    requires Writes(src, c, s, x, e, t) && Pass(src, e, t) == ""
    ensures Pass(src, c, s) == x
  {
  }
}
