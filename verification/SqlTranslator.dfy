/**
  The one-pass translator from T-SQL stored procedures to SQL/MP: a tokenizer over
  the source text and mutually recursive parsing methods that emit as they go.
  Every method returns whether it succeeded; on failure the statement is rejected.
 */
module SqlTranslator {

  import opened Common
  import opened SqlLex
  import opened SqlOutput
  import opened SqlChain
  import opened SqlStatement
  import Decimal

  datatype ErrCode =
    | NoError | SyntaxError | ExpCreate | ExpProc | ExpDot | ExpRpar | ExpLpar | ExpAs | ExpFields
    | ExpFrom | ExpTable | ExpType | ExpLen | ExpOp | ExpCond | OutOfMem | ExpUndefParam | ExpDotField
    | ExpJoin | ExpOn | ExpInto | ExpValues | ExpSet | ExpOrderBy | UnknownFn | ExpWhen | OnlyOneElse
    | ExpThen | ExpValue | ExpEnd | UnexpRpar

  /** What had been written, and how many SELECT activations there were. */
  datatype Mark = Mark(out: seq<Piece>, hosts: seq<Host>, acts: nat)

  class Translator {
    const src: string
    ghost const strict: bool     // whether every function counts as one that skips tokens
    var pos: nat
    var lineno: nat
    var token: Token
    var lexum: string
    var errcode: ErrCode
    var out: seq<Piece>
    var params: seq<Param>
    var lookup: map<string, nat>
    var ufields: seq<string>
    var sys: string
    var name: string
    var stmttype: Token
    ghost var hosts: seq<Host>   // the placeholders of `out`
    var act: nat                 // whose prmidxpos is in use: 0 the statement, else a SELECT activation
    var acts: nat                // SELECT activations so far
    ghost var unbound: nat       // placeholders of `out` without an index
    ghost var leftover: nat      // parentheses that parseConditions left open
    ghost var heads: nat         // SELECT and UNION tokens behind the token in hand
    ghost var opens: nat         // '(' up to the token in hand that can open a condition

    /** The line number counts the newlines of the text read so far, and the token
        counts what is behind. */
    ghost predicate Counted()
      reads `pos, `lineno, `token, `heads, `opens
      requires pos <= |src|
    {
      && lineno == 1 + Newlines(src[..pos])
      && heads + Heads(src, token, pos) == Heads(src, SEMI, 0)
      && opens + Opens(src, token, pos) == Opens(src, SEMI, 0)
    }

    /** Position and line accounting. */
    ghost predicate Scanned()
      reads `pos, `lineno, `token, `heads, `opens
    {
      pos <= |src| && Counted() && (token.EOS? ==> pos == |src|)
    }

    ghost predicate Paired()
      reads `out, `hosts, `unbound
    {
      NeverOverClosed(out) && HostsOf(out) == hosts && UnboundIn(out) == unbound
    }

    /** No ')' without its '('. */
    ghost predicate Written()
      reads `out, `hosts, `unbound
    {
      Paired() && Balance(out) >= 0
    }

    /** Every index counts within its activation and is stored with its parameter. */
    ghost predicate Indexed()
      reads `hosts, `params, `lookup, `act, `acts
    {
      && Numbered(hosts) && AllStored(params, hosts)
      && Named(params, hosts, lookup)
      && (forall k :: 0 <= k < |hosts| ==> hosts[k].act <= acts)
    }

    /** What every call of the tokenizer and every piece written keeps. */
    ghost predicate Ready()
      reads `pos, `lineno, `token, `heads, `opens, `out, `hosts, `unbound
    {
      Scanned() && Written()
    }

    ghost predicate Valid()
      reads this
    {
      Ready() && Indexed() && act <= acts
    }

    /** Source text still to read, plus one if there is a token in hand. */
    ghost function Measure(): nat
      reads `pos, `token
    {
      if pos > |src| then 0 else |src| - pos + if token.EOS? then 0 else 1
    }

    ghost function Cur(): Cursor
      reads `pos, `token, `lexum
    {
      Cursor(token, lexum, pos)
    }

    /** Unclosed parentheses that no parseConditions activation accounts for. */
    ghost function Excess(): int
      reads `out, `leftover
    {
      Balance(out) - leftover
    }

    /** '(' that can open a condition and that no parseConditions activation has
        left open, but for one in hand. */
    ghost function Slack(): int
      reads `opens, `leftover, `token
    {
      opens - leftover - if token.LPAR? then 1 else 0
    }

    /** The '(' less the ')' written, and those of the source still to read. */
    ghost function Drift(): int
      reads `pos, `token, `lexum, `out
    {
      Balance(out) + Due(src, Cur())
    }

    /** Tokens ahead with which others are skipped. */
    ghost function Risk(): nat
      reads `pos, `token, `lexum
    {
      Risks(src, Cur(), strict)
    }

    constructor (text: string, ghost counted: bool)
      ensures Valid() && strict == counted && src == text && pos == 0
      ensures out == [] && acts == act == 0 && leftover == unbound == 0
      ensures lookup == map[] && params == [] && token.SEMI? && lexum == "" && hosts == [] && heads == opens == 0
    {
      src, pos, lineno, token, lexum, errcode := text, 0, 1, SEMI, "", NoError;
      strict := counted;
      out, params, lookup, ufields := [], [], map[], [];
      hosts, act, acts, leftover, unbound, heads, opens := [], 0, 0, 0, 0, 0, 0;
      sys, name, stmttype := "", "", SELECT;
    }

    // ------------------------------------------------------------ tokenizer

    method SkipWs()
      requires pos <= |src|
      modifies `pos, `lineno
      ensures pos == SpaceEnd(src, old(pos))
      ensures lineno == old(lineno) + Newlines(src[old(pos)..pos])
    {
      while pos < |src| && IsSpace(src[pos])
        invariant old(pos) <= pos <= |src| && SpaceEnd(src, pos) == SpaceEnd(src, old(pos))
        invariant lineno == old(lineno) + Newlines(src[old(pos)..pos])
        decreases |src| - pos
      {
        assert src[old(pos)..pos + 1][..pos - old(pos)] == src[old(pos)..pos];
        if src[pos] == '\n' {
          lineno := lineno + 1;
        }
        pos := pos + 1;
      }
    }

    method ScanStr() returns (ok: bool)
      requires pos <= |src| && lexum == ""
      modifies `pos, `lexum
      ensures var end := QuoteEnd(src, old(pos));
              && lexum == src[old(pos)..end] && ok == (Peek(src, end) == '\'')
              && pos == if ok then end + 1 else end
    {
      while pos < |src| && src[pos] != '\''
        invariant old(pos) <= pos <= |src| && QuoteEnd(src, pos) == QuoteEnd(src, old(pos))
        invariant lexum == src[old(pos)..pos]
        decreases |src| - pos
      {
        if src[pos] == '\n' {
          return false;
        }
        lexum := lexum + [src[pos]];
        pos := pos + 1;
      }
      if Peek(src, pos) == '\'' {
        pos := pos + 1;
        return true;
      }
      return false;
    }

    method ScanToWs()
      requires 0 < pos <= |src| && lexum == src[pos - 1..pos]
      modifies `pos, `lexum
      ensures pos == WordEnd(src, old(pos)) && lexum == src[old(pos) - 1..pos]
    {
      while pos < |src| && !IsSpace(src[pos]) && IsWord(src[pos])
        invariant old(pos) <= pos <= |src| && WordEnd(src, pos) == WordEnd(src, old(pos))
        invariant lexum == src[old(pos) - 1..pos]
        decreases |src| - pos
      {
        lexum := lexum + [src[pos]];
        pos := pos + 1;
      }
    }

    method ScanDigits()
      requires 0 < pos <= |src| && lexum == src[pos - 1..pos]
      modifies `pos, `lexum
      ensures pos == DigitsEnd(src, old(pos)) && lexum == src[old(pos) - 1..pos]
    {
      while IsDigit(Peek(src, pos))
        invariant old(pos) <= pos <= |src| && DigitsEnd(src, pos) == DigitsEnd(src, old(pos))
        invariant lexum == src[old(pos) - 1..pos]
        decreases |src| - pos
      {
        lexum := lexum + [src[pos]];
        pos := pos + 1;
      }
    }

    /** A word: keyword, variable, lone '=', function or field name. */
    method WordToken(ghost start: nat)
      requires pos == start + 1 <= |src| && lexum == src[start..pos]
      modifies `pos, `lineno, `token, `lexum
      ensures Reading(true, token, lexum, pos) == WordReading(src, start)
      ensures lineno == old(lineno) + Newlines(src[start + 1..pos])
    {
      ScanToWs();
      NoNewlines(src[start + 1..pos]);
      var ll := Upper(lexum);
      var keyword := Keyword(ll);
      if keyword.Some? {
        token := keyword.value;
      } else if lexum[0] == '@' {
        token := VAR;
      } else if lexum == "=" {
        token := EQ;
      } else {
        ghost var end := pos;
        SkipWs();
        NewlinesSplit(src, start + 1, end, pos);
        token := if Peek(src, pos) == '(' then FUNC else ID;
      }
    }

    /** '<', "<>", and "<=" or "<=>" with their '=' forgotten. */
    method LessToken(ghost start: nat)
      requires pos == start + 1 <= |src| && src[start] == '<' && lexum == "<"
      modifies `pos, `token
      ensures Reading(true, token, lexum, pos) == LessReading(src, start)
      ensures Newlines(src[start + 1..pos]) == 0
    {
      if Peek(src, pos) == '=' {
        pos := pos + 1;
        token := LTEQ;
      }
      if Peek(src, pos) == '>' {
        pos := pos + 1;
        token := NEQ;
      } else {
        token := LT;
      }
      NoNewlines(src[start + 1..pos]);
    }

    method StringToken(ghost start: nat) returns (ok: bool)
      requires pos == start + 1 <= |src| && src[start] == '\''
      modifies `pos, `token, `lexum
      ensures Reading(ok, token, lexum, pos) == SymbolReading(src, start)
      ensures Newlines(src[start + 1..pos]) == 0
    {
      hide WordReading;
      token := STRLIT;
      lexum := "";
      ok := ScanStr();
      NoNewlines(src[start + 1..pos]);
    }

    /** The tokens that start with a character of their own, and words. */
    method SymbolToken(ghost start: nat) returns (ok: bool)
      requires pos == start < |src| && lexum == src[start..start + 1]
      modifies `pos, `lineno, `token, `lexum
      ensures Reading(ok, token, lexum, pos) == SymbolReading(src, start)
      ensures lineno == old(lineno) + Newlines(src[start + 1..pos])
    {
      hide WordReading, LessReading, IsSpace;
      ok := true;
      var c := src[pos];
      pos := pos + 1;
      match c
      case '\'' => ok := StringToken(start);
      case '(' => token := LPAR;
      case ')' => token := RPAR;
      case '.' => token := DOT;
      case '>' =>
        if Peek(src, pos) == '=' {
          pos := pos + 1;
          token := GTEQ;
        } else {
          token := GT;
        }
        NoNewlines(src[start + 1..pos]);
      case '<' => LessToken(start);
      case '*' => token := SPLAT;
      case ',' => token := COMMA;
      case ';' => token := SEMI;
      case _ =>
        if c == '=' && IsSpace(Peek(src, pos)) {
          token := EQ;
        } else {
          WordToken(start);
        }
    }

    method ReadToken(ghost start: nat) returns (ok: bool)
      requires pos == start < |src|
      modifies `pos, `lineno, `token, `lexum
      ensures Reading(ok, token, lexum, pos) == TokenAt(src, start)
      ensures lineno == old(lineno) + Newlines(src[start + 1..pos])
    {
      hide SymbolReading;
      lexum := [src[pos]];
      if IsDigit(src[pos]) || src[pos] == '-' {
        pos := pos + 1;
        ScanDigits();
        token := NUM;
        ok := true;
        NoNewlines(src[start + 1..pos]);
      } else {
        ok := SymbolToken(start);
      }
    }

    /** sqltokenizer: what the reading function says, the line number kept. */
    method Scan() returns (ok: bool)
      requires pos <= |src| && lineno == 1 + Newlines(src[..pos])
      modifies `pos, `lineno, `token, `lexum
      ensures pos <= |src| && lineno == 1 + Newlines(src[..pos])
      ensures Reading(ok, token, lexum, pos) == Lex(src, old(pos), old(lexum))
    {
      hide TokenAt, Newlines;
      SkipWs();
      ghost var start, lines := pos, lineno;
      NewlinesSplit(src, 0, old(pos), start);
      assert src[0..start] == src[..start] && src[0..old(pos)] == src[..old(pos)];
      if pos >= |src| {
        token := EOS;
        ok := true;
      } else {
        ok := ReadToken(start);
        LineAfter(start, lines);
      }
    }

    /** sqltokenizer and the tokens counted. */
    method Tokenize() returns (ok: bool)
      requires Scanned()
      modifies `pos, `lineno, `token, `lexum, `heads, `opens
      ensures Scanned()
      ensures Reading(ok, token, lexum, pos) == Lex(src, old(pos), old(lexum))
      ensures !old(token).EOS? ==> Measure() < old(Measure())
      ensures old(token).EOS? ==> Measure() == 0 && token.EOS?
      ensures heads == old(heads) + if Head(old(token)) then 1 else 0
      ensures opens == old(opens) + if token.LPAR? && !Callee(old(token)) then 1 else 0
    {
      hide Lex, Newlines;
      LexText(src, pos, lexum);
      ok := Scan();
      LexEos(old(pos), old(lexum));
      heads := heads + if Head(old(token)) then 1 else 0;
      opens := opens + if token.LPAR? && !Callee(old(token)) then 1 else 0;
    }

    lemma LexEos(start: nat, text: string)
      requires start <= |src|
      ensures start == |src| ==> Lex(src, start, text).token.EOS? && Lex(src, start, text).pos == |src|
      ensures Lex(src, start, text).token.EOS? ==> Lex(src, start, text).pos == |src|
    {
    }

    lemma LineAfter(start: nat, lines: nat)
      requires start < pos <= |src| && lines == 1 + Newlines(src[..start]) && src[start] != '\n'
      requires lineno == lines + Newlines(src[start + 1..pos])
      ensures lineno == 1 + Newlines(src[..pos])
    {
      NewlinesSplit(src, 0, start, pos);
      NewlinesSplit(src, start, start + 1, pos);
      NoNewlines(src[start..start + 1]);
      assert src[0..start] == src[..start] && src[0..pos] == src[..pos];
    }

    /** A tokenizer call of a parsing method. */
    method Advance() returns (ok: bool)
      requires Ready()
      modifies `pos, `lineno, `token, `lexum, `heads, `opens, `errcode
      ensures Ready()
      ensures ok == NextOk(src, old(Cur())) && Cur() == NextCursor(src, old(Cur()))
      ensures !old(token).EOS? ==> Measure() < old(Measure())
      ensures old(token).EOS? ==> token.EOS? && Measure() == 0
      ensures heads == old(heads) + if Head(old(token)) then 1 else 0
      ensures opens == old(opens) + if token.LPAR? && !Callee(old(token)) then 1 else 0
      ensures Risk() == old(Risk()) - (if Skipper(old(Cur()), strict) then 1 else 0)
      ensures Drift() == old(Drift()) - Paren(old(token))
    {
      hide Lex, Newlines, Counted, Paired, Due, Risks, Skipper, Balance;
      DueNext(src, Cur(), strict);
      ok := Tokenize();
      if !ok {
        errcode := SyntaxError;
      }
    }

    /** Advances to a token that has to be t. */
    method Expect(t: Token, e: ErrCode) returns (ok: bool)
      requires Ready()
      modifies `pos, `lineno, `token, `lexum, `heads, `opens, `errcode
      ensures Ready() && Measure() <= old(Measure())
      ensures !old(token).EOS? ==> Measure() < old(Measure())
      ensures ok <==> NextOk(src, old(Cur())) && NextCursor(src, old(Cur())).token == t
      ensures Cur() == NextCursor(src, old(Cur()))
      ensures heads == old(heads) + if Head(old(token)) then 1 else 0
      ensures opens == old(opens) + if token.LPAR? && !Callee(old(token)) then 1 else 0
      ensures Risk() == old(Risk()) - (if Skipper(old(Cur()), strict) then 1 else 0)
      ensures Drift() == old(Drift()) - Paren(old(token))
    {
      hide Ready, Due, Risks, Skipper, Balance, NextCursor, NextOk, Head, Callee;
      ok := Advance();
      if ok && token != t {
        errcode := e;
        return false;
      }
    }

    // ------------------------------------------------------------ output

    method Emit(p: Piece)
      requires Ready() && !p.Bound? && !p.Unbound? && !p.Close?
      modifies `out
      ensures Ready() && out == old(out) + [p] && Balance(out) == old(Balance(out)) + Weight(p) >= Weight(p)
    {
      hide Counted, Balance, HostsOf, UnboundIn, NeverOverClosed;
      NeverOverClosedSnoc(out, p);
      HostsOfSnoc(out, p);
      UnboundInSnoc(out, p);
      out := out + [p];
    }

    method EmitClose()
      requires Ready() && Balance(out) > 0
      modifies `out
      ensures Ready() && out == old(out) + [Close] && Balance(out) == old(Balance(out)) - 1
    {
      hide Counted, Balance, HostsOf, UnboundIn, NeverOverClosed;
      NeverOverClosedSnoc(out, Close);
      HostsOfSnoc(out, Close);
      UnboundInSnoc(out, Close);
      out := out + [Close];
    }

    method EmitUnbound(name: string)
      requires Ready()
      modifies `out, `unbound
      ensures Ready() && out == old(out) + [Unbound(name)] && Balance(out) == old(Balance(out))
    {
      hide Counted, Balance, HostsOf, UnboundIn, NeverOverClosed;
      NeverOverClosedSnoc(out, Unbound(name));
      HostsOfSnoc(out, Unbound(name));
      UnboundInSnoc(out, Unbound(name));
      out := out + [Unbound(name)];
      unbound := unbound + 1;
    }

    method EmitWord(text: string)
      requires Ready()
      modifies `out
      ensures Ready() && out == old(out) + [Word(text)] && Balance(out) == old(Balance(out))
    {
      hide Ready, Due, Risks, Skipper, Balance;
      Emit(Word(text));
    }

    // ------------------------------------------------------------ what parsing keeps

    /** Written and ahead together there are `extra` more '(' than before, unless a token
        was read with which others are skipped. */
    twostate predicate Even(ok: bool, extra: int)
      reads this
    {
      Risk() <= old(Risk()) && (ok && Risk() == old(Risk()) ==> Drift() == old(Drift()) + extra)
    }

    /** What a parsing method keeps that assigns no index and may skip a token. */
    twostate predicate Skimmed(ok: bool)
      reads this
    {
      && Ready() && Measure() <= old(Measure())
      && heads >= old(heads) && opens >= old(opens) && Even(false, 0)
      && (ok ==> Balance(out) == old(Balance(out)))
    }

    /** What a parsing method keeps that assigns no index. */
    twostate predicate Read(ok: bool)
      reads this
    {
      Skimmed(ok) && Even(ok, 0) && (ok ==> Slack() >= old(Slack()))
    }

    /** Placeholders for these variables find room. */
    ghost predicate Fit(vs: seq<string>)
      reads `lookup, `hosts
    {
      Room(vs, lookup, hosts)
    }

    /** The method read up to `end` and wrote exactly these pieces after `before`. */
    ghost predicate Copied(ok: bool, before: seq<Piece>, end: Option<Cursor>, pieces: seq<Piece>)
      reads `pos, `token, `lexum, `out
    {
      ok && end == Some(Cur()) && out == before + pieces
    }

    ghost function Sofar(): Mark
      reads `out, `hosts, `acts
    {
      Mark(out, hosts, acts)
    }

    /** And the placeholders among them are those of the variables vs, from n on. */
    ghost predicate Wrote(
      ok: bool, before: Mark, end: Option<Cursor>, pieces: seq<Piece>, vs: seq<string>, n: nat, next: nat)
      reads `pos, `token, `lexum, `out, `hosts, `acts, `act, `lookup
    {
      && Copied(ok, before.out, end, pieces) && hosts == before.hosts + HostsFor(vs, lookup, n, act)
      && next == n + |vs| && acts == before.acts
    }

    /** What every parsing method keeps; `leftover` grows only where parseConditions
        stops with parentheses open, and no placeholder of an outer activation is
        added. */
    twostate predicate Parsed(ok: bool)
      reads this
    {
      Grown(ok) && Even(ok, 0) && acts - heads <= old(acts - heads)
    }

    /** The same but for the count of SELECT activations. */
    twostate predicate Grown(ok: bool)
      reads this
    {
      && Valid() && Measure() <= old(Measure())
      && act == old(act) && acts >= old(acts) && leftover >= old(leftover)
      && lookup == old(lookup) && |params| == |old(params)| && unbound == old(unbound)
      && Outer(hosts, act) == Outer(old(hosts), act)
      && heads >= old(heads) && opens >= old(opens)
      && (ok ==> Settled(0, 0))
    }

    /** The '(' written in excess are those that `leftover` and `depth` count; and
        they came from '(' tokens that can open a condition. */
    twostate predicate Settled(depth: int, olddepth: int)
      reads this
    {
      && Excess() - depth == old(Excess()) - olddepth
      && Slack() - depth >= old(Slack()) - olddepth
    }

    // ------------------------------------------------------------ literals, fields, functions

    method ParseLit(inlike: bool) returns (ok: bool)
      requires Ready()
      modifies `pos, `lineno, `token, `lexum, `heads, `opens, `errcode, `out
      ensures Read(ok) && (ok ==> Measure() < old(Measure()))
      ensures ok <==> (old(token).STRLIT? || old(token).NUM?) && NextOk(src, old(Cur()))
      ensures ok ==> Copied(ok, old(out), Skip(src, old(Cur())), [LitPiece(old(Cur()), inlike)])
    {
      hide Ready, Due, Risks, Skipper, NextCursor, NextOk, Balance, Head;
      if token.STRLIT? {
        Emit(Quoted(lexum, inlike));
        ok := Advance();
      } else if token.NUM? {
        EmitWord(lexum);
        ok := Advance();
      } else {
        ok := false;
      }
    }

    /** The '.' of a qualified field and the name behind it. */
    method ParseQualified(fieldname: string) returns (ok: bool, full: string)
      requires Ready() && token.DOT?
      modifies `pos, `lineno, `token, `lexum, `heads, `opens, `errcode, `out
      ensures Read(ok) && Measure() < old(Measure())
      ensures var name := NextCursor(src, old(Cur()));
              && (ok <==> NextOk(src, old(Cur())) && name.token.ID? && NextOk(src, name))
              && (ok ==> Cur() == NextCursor(src, name) && out == old(out) + [Word("."), Word(name.text)])
    {
      hide Ready, Due, Risks, Skipper, NextCursor, NextOk, Balance, Head;
      EmitWord(".");
      full := fieldname + ".";
      ok := Advance();
      if !ok { return; }
      full := full + lexum;
      if !token.ID? {
        errcode := ExpDotField;
        ok := false;
        return;
      }
      EmitWord(lexum);
      ok := Advance();
    }

    method ParseField(inselect: bool) returns (ok: bool)
      requires Ready()
      modifies `pos, `lineno, `token, `lexum, `heads, `opens, `errcode, `out, `ufields
      ensures Read(ok) && (ok ==> Measure() < old(Measure()))
      ensures ok <==> ReadField(src, old(Cur())).Some?
      ensures ok ==> Copied(ok, old(out), ReadField(src, old(Cur())), FieldPieces(src, old(Cur())))
    {
      hide Ready, Due, Risks, Skipper, NextCursor, NextOk, Balance, Head;
      if !token.ID? {
        return false;
      }
      var fieldname := lexum;
      EmitWord(lexum);
      ok := Advance();
      if !ok { return; }
      if token.DOT? {
        ok, fieldname := ParseQualified(fieldname);
        if !ok { return; }
      }
      if inselect {
        ufields := ufields + [fieldname];
      }
    }

    method EmitStar()
      requires Ready()
      modifies `out
      ensures Ready() && out == old(out) + [Word("COUNT"), Open, Word("*"), Close] && Balance(out) == old(Balance(out))
    {
      hide Ready, Due, Risks, Skipper, Balance;
      EmitWord("COUNT");
      Emit(Open);
      EmitWord("*");
      EmitClose();
    }

    /** COUNT, up to the splat. */
    method ParseCount() returns (ok: bool)
      requires Ready() && token.FUNC? && lexum == "COUNT"
      modifies `pos, `lineno, `token, `lexum, `heads, `opens, `errcode, `out
      ensures Skimmed(ok) && Measure() < old(Measure())
      ensures ok <==> ArgumentsEnd(src, old(Cur())).Some?
      ensures ok ==> Copied(ok, old(out), ArgumentsEnd(src, old(Cur())), ArgumentsPieces(src, old(Cur())))
      ensures Even(ok, Paren(token) - 1) && Risk() <= old(Risk()) - if Skipper(old(Cur()), strict) then 1 else 0
    {
      hide Ready, Due, Risks, Skipper, NextCursor, NextOk, Balance, Head, Callee;
      EmitStar();
      ok := Expect(LPAR, ExpLpar);
      if !ok { return; }
      ok := Expect(SPLAT, ExpFields);
    }

    /** AVG, MAX, MIN or SUM and its field; parseField has moved past the field,
        so the ')' that closed it is the token the caller skips. */
    method ParseAggregate() returns (ok: bool)
      requires Ready() && token.FUNC? && Aggregate(lexum)
      modifies `pos, `lineno, `token, `lexum, `heads, `opens, `errcode, `out, `ufields
      ensures Skimmed(ok) && Measure() < old(Measure())
      ensures ok <==> ArgumentsEnd(src, old(Cur())).Some?
      ensures ok ==> Copied(ok, old(out), ArgumentsEnd(src, old(Cur())), ArgumentsPieces(src, old(Cur())))
      ensures Even(ok, Paren(token) - 1) && (ok ==> Risk() < old(Risk()))
    {
      hide Ready, Due, Risks, Skipper, NextCursor, NextOk, Balance, Head, Callee, ReadField, FieldPieces, SkipTo;
      AggregateSkips(Cur(), strict);
      ok := ParseAggregateHead();
      if !ok { return; }
      ok := ParseField(false);
      if !ok { return; }
      EmitClose();
    }

    /** An aggregate up to its field. */
    method ParseAggregateHead() returns (ok: bool)
      requires Ready() && token.FUNC?
      modifies `pos, `lineno, `token, `lexum, `heads, `opens, `errcode, `out
      ensures Ready() && Measure() < old(Measure()) && heads >= old(heads) && opens >= old(opens)
      ensures ok <==> ArgumentAt(src, old(Cur())).Some?
      ensures ok ==> Copied(ok, old(out), ArgumentAt(src, old(Cur())), [Word(old(lexum)), Open])
      ensures ok ==> Balance(out) == old(Balance(out)) + 1 && Balance(out) > 0
      ensures Risk() <= old(Risk()) - if Skipper(old(Cur()), strict) then 1 else 0
    {
      hide Ready, Due, Risks, Skipper, NextCursor, NextOk, Balance, Head, Callee;
      EmitWord(lexum);
      Emit(Open);
      ok := Expect(LPAR, ExpLpar);
      if !ok { return; }
      ok := Advance();
    }

    /** The named function and what its parentheses hold. */
    method ParseArguments() returns (ok: bool)
      requires Ready() && token.FUNC?
      modifies `pos, `lineno, `token, `lexum, `heads, `opens, `errcode, `out, `ufields
      ensures Skimmed(ok) && (ok ==> Measure() < old(Measure()))
      ensures ok <==> ArgumentsEnd(src, old(Cur())).Some?
      ensures ok ==> Copied(ok, old(out), ArgumentsEnd(src, old(Cur())), ArgumentsPieces(src, old(Cur())))
      ensures Even(ok, Paren(token) - 1) && (ok && strict ==> Risk() < old(Risk()))
    {
      hide Ready, Due, Risks, Skipper, Upper, NextCursor, NextOk, Balance, Head, Callee, ReadField, FieldPieces;
      StrictSkips(Cur());
      if lexum == "GETDATE" {
        EmitWord("CURRENT");
        ok := Expect(LPAR, ExpLpar);
      } else if lexum == "COUNT" {
        ok := ParseCount();
      } else if lexum in {"AVG", "MAX", "MIN", "SUM"} {
        ok := ParseAggregate();
      } else {
        errcode := UnknownFn;
        ok := false;
      }
    }

    method ParseFunction() returns (ok: bool)
      requires Ready()
      modifies `pos, `lineno, `token, `lexum, `heads, `opens, `errcode, `out, `ufields
      ensures Read(ok)
      ensures ok ==> old(token).FUNC? && Measure() < old(Measure())
      ensures ok <==> FunctionEnd(src, old(Cur())).Some?
      ensures ok ==> Copied(ok, old(out), FunctionEnd(src, old(Cur())), FunctionPieces(src, old(Cur())))
      ensures ok && strict ==> Risk() < old(Risk())
    {
      hide Upper, Ready, Due, Risks, Skipper, NextCursor, NextOk, Balance, Head, ArgumentsEnd, ArgumentsPieces;
      if !token.FUNC? {
        errcode := SyntaxError;
        return false;
      }
      DueCapital(src, Cur(), strict);
      lexum := Upper(lexum);
      ok := ParseArguments();
      if !ok { return; }
      ok := ParseCallEnd();
    }

    /** The ')' of a function and the token behind it. */
    method ParseCallEnd() returns (ok: bool)
      requires Ready()
      modifies `pos, `lineno, `token, `lexum, `heads, `opens, `errcode
      ensures Skimmed(ok) && Even(ok, 1 - Paren(old(token)))
      ensures ok ==> Slack() >= old(opens) - leftover
      ensures var r := SkipTo(src, old(Cur()), RPAR);
              && (ok <==> r.Some? && NextOk(src, r.value))
              && (ok ==> Some(Cur()) == Skip(src, r.value))
    {
      hide Ready, Due, Risks, Skipper, NextCursor, NextOk, Balance, Head;
      ok := Expect(RPAR, ExpRpar);
      if !ok { return; }
      ok := Advance();
    }

    // ------------------------------------------------------------ GROUP BY and ORDER BY

    /** Fails whatever the token is: a token is never both ID and FUNC. */
    method ParseFieldFnList() returns (ok: bool)
      modifies `errcode
      ensures !ok && errcode == ExpFields
    {
      if !token.ID? || !token.FUNC? {
        errcode := ExpFields;
        return false;
      }
      assert false;
    }

    /** Only a statement without GROUP BY gets past this. */
    method ParseGroupBy() returns (ok: bool)
      requires Ready()
      modifies `pos, `lineno, `token, `lexum, `heads, `opens, `errcode, `out
      ensures Read(ok)
      ensures ok <==> !old(token).GROUP?
      ensures ok ==> Copied(ok, old(out), Some(old(Cur())), [])
    {
      hide Ready, Due, Risks, Skipper, NextCursor, NextOk, Balance, Head, Callee;
      if !token.GROUP? {
        return true;
      }
      ok := Expect(BY, ExpOrderBy);
      if !ok { return; }
      ok := Advance();
      if !ok { return; }
      EmitWord(" GROUP BY ");
      ok := ParseFieldFnList();
    }

    /** DESC unless ASC is spelled out. */
    method ParseDirection() returns (ok: bool)
      requires Ready()
      modifies `pos, `lineno, `token, `lexum, `heads, `opens, `errcode, `out
      ensures Read(ok)
      ensures ok <==> old(token).ASC? || old(token).DESC? ==> NextOk(src, old(Cur()))
      ensures ok ==>
                var named := old(token).ASC? || old(token).DESC?;
                Copied(ok, old(out), if named then Skip(src, old(Cur())) else Some(old(Cur())),
                       [Word(if old(token).ASC? then " ASC " else " DESC ")])
    {
      hide Ready, Due, Risks, Skipper, NextCursor, NextOk, Balance, Head;
      if token.DESC? {
        EmitWord(" DESC ");
        ok := Advance();
      } else if token.ASC? {
        EmitWord(" ASC ");
        ok := Advance();
      } else {
        EmitWord(" DESC ");
        ok := true;
      }
    }

    /** A field or a function and its direction. */
    method ParseSort(ghost s: Option<Sort>) returns (ok: bool)
      requires Ready() && (token.ID? || token.FUNC?)
      requires s.Some? ==> SortEnd(src, Cur(), s.value).Some?
      modifies `pos, `lineno, `token, `lexum, `heads, `opens, `errcode, `out, `ufields
      ensures Read(ok) && (ok ==> Measure() < old(Measure()))
      ensures s.Some? ==> Copied(ok, old(out), SortEnd(src, old(Cur()), s.value), SortPieces(s.value))
    {
      hide Ready, Due, Risks, Skipper, NextCursor, NextOk, Balance, Head, FieldPieces, NamePieces;
      hide FunctionEnd, FunctionPieces;
      if token.ID? {
        ok := ParseField(false);
      } else {
        ok := ParseFunction();
      }
      if !ok { return; }
      ok := ParseDirection();
    }

    /** The comma after a sort item. */
    method ParseSortComma() returns (ok: bool)
      requires Ready()
      modifies `pos, `lineno, `token, `lexum, `heads, `opens, `errcode, `out
      ensures Read(ok)
      ensures !old(token).COMMA? ==> Copied(ok, old(out), Some(old(Cur())), [])
      ensures old(token).COMMA? ==>
                && (ok <==> NextOk(src, old(Cur())) && (token.ID? || token.FUNC?))
                && Cur() == NextCursor(src, old(Cur()))
                && (ok ==> out == old(out) + [Word(",")])
    {
      hide Ready, Due, Risks, Skipper, NextCursor, NextOk, Balance, Head;
      ok := true;
      if token.COMMA? {
        ok := Advance();
        if !ok { return; }
        EmitWord(",");
        if !token.ID? && !token.FUNC? {
          errcode := ExpFields;
          return false;
        }
      }
    }

    /** One sort item and the comma after it. */
    method ParseOrderItem(ghost ss: Option<seq<Sort>>) returns (ok: bool)
      requires Ready() && (token.ID? || token.FUNC?)
      requires ss.Some? ==> SortsEnd(src, Cur(), ss.value).Some?
      modifies `pos, `lineno, `token, `lexum, `heads, `opens, `errcode, `out, `ufields
      ensures Read(ok) && (ok ==> Measure() < old(Measure()))
      ensures ss.Some? && |ss.value| == 1 ==>
                && !token.ID? && !token.FUNC?
                && Copied(ok, old(out), SortsEnd(src, old(Cur()), ss.value), SortsPieces(ss.value))
      ensures ss.Some? && |ss.value| > 1 ==>
                && ok && SortsEnd(src, Cur(), ss.value[1..]) == SortsEnd(src, old(Cur()), ss.value)
                && SortsEnd(src, Cur(), ss.value[1..]).Some?
                && out == old(out) + (SortPieces(ss.value[0]) + [Word(",")])
    {
      hide Ready, Due, Risks, Skipper, NextCursor, NextOk, Balance, Head, SortEnd, SortPieces;
      if ss.Some? {
        SortsStart(src, Cur(), ss.value);
        if |ss.value| > 1 {
          SortsStart(src, NextCursor(src, SortEnd(src, Cur(), ss.value[0]).value), ss.value[1..]);
        }
      }
      ok := ParseSort(if ss.Some? then Some(ss.value[0]) else None);
      if !ok { return; }
      ok := ParseSortComma();
    }

    method ParseOrderItems(ghost ss: Option<seq<Sort>>) returns (ok: bool)
      requires Ready()
      requires ss.Some? ==> SortsEnd(src, Cur(), ss.value).Some?
      modifies `pos, `lineno, `token, `lexum, `heads, `opens, `errcode, `out, `ufields
      ensures Read(ok)
      ensures ss.Some? ==> Copied(ok, old(out), SortsEnd(src, old(Cur()), ss.value), SortsPieces(ss.value))
    {
      hide Ready, Due, Risks, Skipper, NextCursor, NextOk, Balance, Head, Callee, SortEnd, SortPieces;
      ghost var rest := ss;
      ghost var goal := if ss.Some? then out + SortsPieces(ss.value) else [];
      ghost var end := if ss.Some? then SortsEnd(src, Cur(), ss.value) else None;
      ok := true;
      if ss.Some? {
        SortsStart(src, Cur(), ss.value);
      }
      while token.ID? || token.FUNC?
        invariant Read(ok) && ok
        invariant rest.Some? ==>
                    && rest.value != [] && end.Some? && SortsEnd(src, Cur(), rest.value) == end
                    && out + SortsPieces(rest.value) == goal && token.ID?
        invariant ss.Some? && rest.None? ==> end == Some(Cur()) && out == goal && !token.ID? && !token.FUNC?
        invariant rest.Some? ==> ss.Some?
        decreases Measure()
      {
        ghost var before := out;
        ok := ParseOrderItem(rest);
        if !ok { return; }
        if rest.Some? {
          if |rest.value| == 1 {
            rest := None;
          } else {
            SortsStart(src, Cur(), rest.value[1..]);
            Assoc(before, SortPieces(rest.value[0]) + [Word(",")], SortsPieces(rest.value[1..]));
            rest := Some(rest.value[1..]);
          }
        }
      }
    }

    method ParseOrderHead() returns (ok: bool)
      requires Ready() && token.ORDER?
      modifies `pos, `lineno, `token, `lexum, `heads, `opens, `errcode, `out
      ensures Read(ok)
      ensures ok <==> OrderHeadEnd(src, old(Cur())).Some?
      ensures ok ==> Copied(ok, old(out), OrderHeadEnd(src, old(Cur())), [Word(" ORDER BY ")])
    {
      hide Ready, Due, Risks, Skipper, NextCursor, NextOk, Balance, Head;
      ok := Expect(BY, ExpOrderBy);
      if !ok { return; }
      ok := Advance();
      if !ok { return; }
      EmitWord(" ORDER BY ");
    }

    method ParseOrderBy(ghost ss: Option<seq<Sort>>) returns (ok: bool)
      requires Ready()
      requires ss.Some? ==> OrderEnd(src, Cur(), ss.value).Some?
      modifies `pos, `lineno, `token, `lexum, `heads, `opens, `errcode, `out, `ufields
      ensures Read(ok)
      ensures ss.Some? ==> Copied(ok, old(out), OrderEnd(src, old(Cur()), ss.value), OrderPieces(ss.value))
    {
      hide Ready, Due, Risks, Skipper, NextCursor, NextOk, Balance, Head, Callee, SortsEnd, SortsPieces;
      if !token.ORDER? {
        return true;
      }
      ok := ParseOrderHead();
      if !ok { return; }
      if ss.Some? {
        SortsStart(src, Cur(), ss.value);
      }
      if !token.ID? {
        errcode := ExpFields;
        return false;
      }
      ok := ParseOrderItems(ss);
    }

    // ------------------------------------------------------------ placeholders

    method EmitHost(h: Host, idxs: seq<int>)
      requires Ready() && Indexed() && h.param < |params| && h.index == Placed(hosts, h.act) && h.act <= acts
      requires Stored(params[h.param].(idxs := idxs), hosts + [h], h.param) && h.name == VarName(params[h.param].name)
      modifies `out, `hosts, `params
      ensures Ready() && Indexed() && out == old(out) + [Bound(h)] && Balance(out) == old(Balance(out))
      ensures hosts == old(hosts) + [h] && params == old(params)[h.param := old(params)[h.param].(idxs := idxs)]
      ensures Placed(hosts, h.act) == Placed(old(hosts), h.act) + 1 && Outer(hosts, h.act) == Outer(old(hosts), h.act)
    {
      hide NeverOverClosed, Balance, HostsOf, UnboundIn, Numbered, AllStored, Named, Stored, Placed, Outer, Counted;
      NeverOverClosedSnoc(out, Bound(h));
      HostsOfSnoc(out, Bound(h));
      UnboundInSnoc(out, Bound(h));
      NumberedSnoc(hosts, h);
      AllStoredSnoc(params, hosts, h, params[h.param].(idxs := idxs));
      NamedSnoc(params, hosts, lookup, h, idxs);
      PlacedSnoc(hosts, h, h.act);
      OuterSnoc(hosts, h, h.act);
      out := out + [Bound(h)];
      params := params[h.param := params[h.param].(idxs := idxs)];
      AppendHost(h);
    }

    ghost method AppendHost(h: Host)
      modifies `hosts
      ensures hosts == old(hosts) + [h]
    {
      hosts := hosts + [h];
    }

    /** Stores index n with parameter i and emits its placeholder. */
    method BindParam(i: nat, n: nat, name: string) returns (ok: bool, next: nat)
      requires Ready() && Indexed() && i < |params| && n == Placed(hosts, act) && act <= acts
      requires name == VarName(params[i].name)
      modifies `out, `hosts, `params, `errcode
      ensures Ready() && Indexed() && |params| == |old(params)|
      ensures ok <==> |IndicesOf(old(hosts), i)| < PRMIDXLEN
      ensures ok ==> next == n + 1 && Balance(out) == old(Balance(out))
      ensures ok ==> out == old(out) + [Bound(Host(name, i, n, act))] && hosts == old(hosts) + [Host(name, i, n, act)]
      ensures Outer(hosts, act) == Outer(old(hosts), act) && (ok ==> next == Placed(hosts, act))
    {
      hide Ready, Due, Risks, Skipper, Balance, Numbered, Named, Stored, Placed, Outer, IndicesOf;
      assert Stored(params[i], hosts, i);
      FreeSlot(params[i], hosts, i);
      var idxs, pos;
      ok, idxs, pos := SetPrmIdx(params[i].idxs, n);
      next := n;
      if !ok {
        errcode := OutOfMem;
        return;
      }
      ghost var x :| FirstFree(params[i].idxs, x) && idxs == params[i].idxs[x := n];
      StoresNext(params[i], hosts, Host(name, i, n, act), x);
      next := n + 1;
      EmitHost(Host(name, i, n, act), idxs);
    }

    method SetLike(i: nat)
      requires Indexed() && i < |params|
      modifies `params
      ensures Indexed() && |params| == |old(params)| && params[i].name == old(params)[i].name
    {
      assert forall j :: 0 <= j < |params| ==> Stored(params[j], hosts, j);
      params := params[i := params[i].(likepattern := true)];
    }

    // ------------------------------------------------------------ operands and comparisons

    /** A declared variable: likepattern, index and placeholder. */
    method EmitVar(n: nat, inlike: bool) returns (ok: bool, next: nat)
      requires Ready() && Indexed() && act <= acts && n == Placed(hosts, act) && lexum in lookup
      modifies `errcode, `out, `hosts, `params
      ensures Ready() && Indexed() && |params| == |old(params)|
      ensures ok <==> |IndicesOf(old(hosts), lookup[lexum])| < PRMIDXLEN
      ensures ok ==> next == n + 1 && Balance(out) == old(Balance(out))
      ensures ok ==>
                var h := Host(VarName(lexum), lookup[lexum], n, act);
                out == old(out) + [Bound(h)] && hosts == old(hosts) + [h]
      ensures Outer(hosts, act) == Outer(old(hosts), act) && (ok ==> next == Placed(hosts, act))
    {
      hide Ready, Due, Risks, Skipper, Balance, Numbered, Placed, Outer, AllStored, IndicesOf, Named;
      var i := lookup[lexum];
      NamedAt(params, hosts, lookup, lexum);
      if inlike {
        SetLike(i);
      }
      ok, next := BindParam(i, n, VarName(lexum));
    }

    method ParseVar(n: nat, inlike: bool) returns (ok: bool, next: nat)
      requires Valid() && token.VAR? && n == Placed(hosts, act)
      modifies `pos, `lineno, `token, `lexum, `heads, `opens, `errcode, `out, `hosts, `params
      ensures Parsed(ok) && (ok ==> next == Placed(hosts, act) && Measure() < old(Measure()))
      ensures NextOk(src, old(Cur())) ==>
                if old(Fit([lexum])) then Wrote(
                  ok, old(Sofar()), Skip(src, old(Cur())),
                  TargetPieces(TranslateOperand(Variable(old(lexum)), lookup, n, act), inlike),
                  [old(lexum)], n, next)
                else !ok
    {
      hide Ready, Due, Risks, Skipper, Indexed, NextCursor, NextOk, Balance, Placed, Outer, IndicesOf, Room, Head;
      next := n;
      RoomOne(lexum, lookup, hosts);
      if lexum !in lookup {
        errcode := ExpUndefParam;
        return false, n;
      }
      ok, next := EmitVar(n, inlike);
      if !ok { return; }
      ok := Advance();
    }

    /** A right-hand side that is no variable; `o` is the operand the source is
        known to spell, if it is known. */
    method ParseCopied(inlike: bool, allowFunctions: bool, ghost o: Option<Operand>) returns (ok: bool)
      requires Ready() && !token.VAR?
      requires o.Some? ==> OperandEnd(src, Cur(), o.value).Some?
      modifies `pos, `lineno, `token, `lexum, `heads, `opens, `errcode, `out, `ufields
      ensures Read(ok) && (ok ==> Measure() < old(Measure()))
      ensures o.Some? ==>
                Copied(ok, old(out), OperandEnd(src, old(Cur()), o.value), TargetPieces(Same(o.value), inlike))
      ensures old(token).NOT? ==> !ok
    {
      hide Ready, Due, Risks, Skipper, NextCursor, NextOk, Balance, Head, FunctionEnd, FunctionPieces;
      if token.STRLIT? || token.NUM? {
        ok := ParseLit(inlike);
      } else if token.ID? {
        ok := ParseField(false);
      } else if token.FUNC? && allowFunctions {
        ok := ParseFunction();
      } else if token.NULL? {
        EmitWord(" NULL ");
        ok := Advance();
      } else {
        errcode := ExpCond;
        ok := false;
      }
    }

    /** The right-hand side of a comparison. */
    method ParseOperand(n: nat, inlike: bool, allowFunctions: bool, ghost o: Option<Operand>)
      returns (ok: bool, next: nat)
      requires Valid() && n == Placed(hosts, act)
      requires o.Some? ==> OperandEnd(src, Cur(), o.value).Some?
      modifies `pos, `lineno, `token, `lexum, `heads, `opens, `errcode, `out, `hosts, `params, `ufields
      ensures Parsed(ok) && (ok ==> next == Placed(hosts, act) && Measure() < old(Measure()))
      ensures o.Some? ==>
                if old(Fit(OperandVars(o.value))) then Wrote(
                  ok, old(Sofar()), OperandEnd(src, old(Cur()), o.value),
                  TargetPieces(TranslateOperand(o.value, lookup, n, act), inlike), OperandVars(o.value), n, next)
                else !ok
      ensures old(token).NOT? ==> !ok
    {
      hide Ready, Due, Risks, Skipper, Indexed, NextCursor, NextOk, Balance, Placed, Outer, Room, Head, Callee;
      hide ReadField, FieldPieces, NamePieces, TargetPieces;
      if token.VAR? {
        if o.Some? {
          OperandToken(src, Cur(), o.value);
        }
        ok, next := ParseVar(n, inlike);
      } else {
        next := n;
        ok := ParseCopied(inlike, allowFunctions, o);
        if o.Some? {
          NoHosts(lookup, n, act);
          RoomNone(lookup, hosts);
        }
      }
    }

    lemma NoHosts(lookup: map<string, nat>, n: nat, act: nat)
      ensures HostsFor([], lookup, n, act) == []
    {
    }

    /** The operator of a comparison, and the NOT after an IS; `isnull` stays set
        once an IS was seen, and then NULL or a NOT has to follow every operator. */
    method ParseOperator(wasnull: bool) returns (ok: bool, inlike: bool, isnull: bool)
      requires Ready()
      modifies `pos, `lineno, `token, `lexum, `heads, `opens, `errcode, `out
      ensures Read(ok) && (ok ==> Measure() < old(Measure()))
      ensures inlike == old(token).LIKE? && isnull == (wasnull || old(token).IS?)
      ensures var next := NextCursor(src, old(Cur()));
              ok <==> Operator(old(token)) && NextOk(src, old(Cur()))
                      && (isnull ==> next.token.NULL? || (next.token.NOT? && NextOk(src, next)))
      ensures ok ==>
                var next := NextCursor(src, old(Cur()));
                var negated := isnull && next.token.NOT?;
                Copied(ok, old(out), NotEnd(src, next, negated), OperatorPieces(old(token), negated))
    {
      hide Ready, Due, Risks, Skipper, NextCursor, NextOk, Balance, Head, OperatorText;
      OperatorKinds(token);
      var op := OperatorText(token);
      inlike, isnull := token.LIKE?, wasnull || token.IS?;
      if op.None? {
        errcode := ExpOp;
        ok := false;
        return;
      }
      EmitWord(op.value);
      ok := Advance();
      if ok && isnull {
        ok := ParseNullWord();
      }
    }

    /** After IS: NULL is to follow, or NOT in front of anything. */
    method ParseNullWord() returns (ok: bool)
      requires Ready()
      modifies `pos, `lineno, `token, `lexum, `heads, `opens, `errcode, `out
      ensures Read(ok)
      ensures ok <==> old(token).NULL? || (old(token).NOT? && NextOk(src, old(Cur())))
      ensures ok ==> Copied(ok, old(out), NotEnd(src, old(Cur()), old(token).NOT?), NotPieces(old(token).NOT?, "NOT "))
    {
      hide Ready, Due, Risks, Skipper, NextCursor, NextOk, Balance, Head;
      ok := true;
      if !token.NULL? {
        if !token.NOT? {
          errcode := SyntaxError;
          return false;
        }
        EmitWord("NOT ");
        ok := Advance();
      }
    }

    /** TERMINATE after a pattern, and the blank after every comparison. */
    method EmitTerminator(inlike: bool)
      requires Ready()
      modifies `out
      ensures Ready() && Balance(out) == old(Balance(out)) && out == old(out) + TerminatorPieces(inlike)
    {
      hide Ready, Due, Risks, Skipper, Balance;
      if inlike {
        EmitWord(" TERMINATE \"`\" ");
      }
      EmitWord(" ");
    }

    /** The operator of a comparison and its operand; `k` is the comparison the source
        is known to spell, if it is known. */
    method ParseCompared(n: nat, allowFunctions: bool, wasnull: bool, ghost k: Option<Test<Operand>>)
      returns (ok: bool, next: nat, inlike: bool, isnull: bool)
      requires Valid() && n == Placed(hosts, act)
      requires k.Some? ==>
                 k.value.Compare? && SaidEnd(src, Cur(), k.value).Some?
      modifies `pos, `lineno, `token, `lexum, `heads, `opens, `errcode, `out, `hosts, `params, `ufields
      ensures Parsed(ok) && (ok ==> next == Placed(hosts, act) && Measure() < old(Measure()))
      ensures inlike == old(token).LIKE? && isnull == (wasnull || old(token).IS?)
      ensures k.Some? ==>
                if TestRule(k.value, wasnull) && old(Fit(OperandVars(k.value.operand))) then Wrote(
                  ok, old(Sofar()), SaidEnd(src, old(Cur()), k.value),
                  ComparedPieces(k.value.op, k.value.negated, TranslateOperand(k.value.operand, lookup, n, act)),
                  OperandVars(k.value.operand), n, next)
                else !ok
    {
      hide Ready, Due, Risks, Skipper, Indexed, NextCursor, NextOk, Balance, Placed, Outer, Room, Head;
      hide Callee, Operator;
      hide OperandEnd, CompareEnd, TranslateOperand, TargetPieces, OperandVars, OperatorPieces, HostsFor;
      next := n;
      ghost var operand := None;
      if k.Some? {
        CompareParts(src, Cur(), k.value.op, k.value.negated, k.value.operand);
        if TestRule(k.value, wasnull) {
          operand := Some(k.value.operand);
          Assoc(out, OperatorPieces(k.value.op, k.value.negated),
                TargetPieces(TranslateOperand(k.value.operand, lookup, n, act), k.value.op.LIKE?));
        }
      }
      ok, inlike, isnull := ParseOperator(wasnull);
      if !ok { return; }
      ok, next := ParseOperand(n, inlike, allowFunctions, operand);
    }

    /** A comparison and the blank after its operand. */
    method ParseComparison(n: nat, allowFunctions: bool, wasnull: bool, ghost k: Option<Test<Operand>>)
      returns (ok: bool, next: nat, isnull: bool)
      requires Valid() && n == Placed(hosts, act)
      requires k.Some? ==>
                 k.value.Compare? && SaidEnd(src, Cur(), k.value).Some?
      modifies `pos, `lineno, `token, `lexum, `heads, `opens, `errcode, `out, `hosts, `params, `ufields
      ensures Parsed(ok) && (ok ==> next == Placed(hosts, act) && Measure() < old(Measure()))
      ensures isnull == (wasnull || old(token).IS?)
      ensures k.Some? ==>
                if TestRule(k.value, wasnull) && old(Fit(TestVars(k.value))) then Wrote(
                  ok, old(Sofar()), SaidEnd(src, old(Cur()), k.value),
                  SaidPieces(TranslateTest(k.value, lookup, n, act)), TestVars(k.value), n, next)
                else !ok
    {
      hide Ready, Due, Risks, Skipper, Indexed, NextCursor, NextOk, Balance, Placed, Outer, Room, Head, Callee;
      hide SaidEnd, TranslateOperand, ComparedPieces, OperandVars, HostsFor, TestRule, SeenAfter, TerminatorPieces;
      if k.Some? {
        SaidStart(src, Cur(), k.value);
        Assoc(out, ComparedPieces(k.value.op, k.value.negated, TranslateOperand(k.value.operand, lookup, n, act)),
              TerminatorPieces(k.value.op.LIKE?));
      }
      var inlike;
      ok, next, inlike, isnull := ParseCompared(n, allowFunctions, wasnull, k);
      if ok {
        EmitTerminator(inlike);
      }
    }

    // ------------------------------------------------------------ IN lists

    /** "IN (" */
    method ParseInHead() returns (ok: bool)
      requires Ready() && token.IN?
      modifies `pos, `lineno, `token, `lexum, `heads, `opens, `errcode, `out
      ensures Ready() && Measure() < old(Measure()) && heads >= old(heads) && opens >= old(opens)
      ensures ok ==> Balance(out) == old(Balance(out)) + 1 > 0 && Slack() >= old(Slack())
      ensures ok <==> ListHeadEnd(src, old(Cur())).Some?
      ensures ok ==> Copied(ok, old(out), ListHeadEnd(src, old(Cur())), [Word(" IN "), Open])
      ensures Even(ok, 0)
    {
      hide Ready, Due, Risks, Skipper, NextCursor, NextOk, Balance, Head;
      ok := Expect(LPAR, ExpLpar);
      if !ok { return; }
      ok := Advance();
      if !ok { return; }
      EmitWord(" IN ");
      Emit(Open);
    }

    method ParseClose() returns (ok: bool)
      requires Ready() && Balance(out) > 0
      modifies `pos, `lineno, `token, `lexum, `heads, `opens, `errcode, `out
      ensures Ready() && Measure() <= old(Measure()) && heads >= old(heads) && opens >= old(opens)
      ensures ok ==> Balance(out) == old(Balance(out)) - 1 && Slack() >= old(Slack())
      ensures ok <==> old(token).RPAR? && NextOk(src, old(Cur()))
      ensures ok ==> Copied(ok, old(out), Skip(src, old(Cur())), [Close])
      ensures Even(ok, 0)
    {
      hide Ready, Due, Risks, Skipper, NextCursor, NextOk, Balance, Head;
      if !token.RPAR? {
        errcode := ExpRpar;
        return false;
      }
      ok := Advance();
      if !ok { return; }
      EmitClose();
    }

    /** One literal and the comma after it. */
    method ParseLitItem(ghost vs: Option<seq<Value>>) returns (ok: bool)
      requires Ready() && (token.NUM? || token.STRLIT?)
      requires vs.Some? ==> LitsEnd(src, Cur(), vs.value).Some?
      modifies `pos, `lineno, `token, `lexum, `heads, `opens, `errcode, `out
      ensures Read(ok) && (ok ==> Measure() < old(Measure()))
      ensures vs.Some? ==> vs.value != []
      ensures vs.Some? && |vs.value| == 1 ==>
                && !token.NUM? && !token.STRLIT?
                && Copied(ok, old(out), LitsEnd(src, old(Cur()), vs.value), [ValuePiece(vs.value[0])])
      ensures vs.Some? && |vs.value| > 1 ==>
                && ok && LitsEnd(src, Cur(), vs.value[1..]) == LitsEnd(src, old(Cur()), vs.value)
                && out == old(out) + [ValuePiece(vs.value[0]), Word(",")]
    {
      hide Ready, Due, Risks, Skipper, NextCursor, NextOk, Balance, Head;
      if vs.Some? {
        LitsStart(src, Cur(), vs.value);
        if |vs.value| > 1 {
          LitsStart(src, NextCursor(src, ValueEnd(src, Cur(), vs.value[0]).value), vs.value[1..]);
        }
      }
      ok := ParseLit(false);
      if !ok { return; }
      ok := ParseLitComma();
    }

    method ParseLitComma() returns (ok: bool)
      requires Ready()
      modifies `pos, `lineno, `token, `lexum, `heads, `opens, `errcode, `out
      ensures Read(ok)
      ensures !old(token).COMMA? ==> Copied(ok, old(out), Some(old(Cur())), [])
      ensures old(token).COMMA? ==>
                && (ok <==> NextOk(src, old(Cur())) && (token.NUM? || token.STRLIT?))
                && Cur() == NextCursor(src, old(Cur()))
                && (ok ==> out == old(out) + [Word(",")])
    {
      hide Ready, Due, Risks, Skipper, NextCursor, NextOk, Balance, Head;
      ok := true;
      if token.COMMA? {
        ok := Advance();
        if !ok { return; }
        EmitWord(",");
        if !(token.NUM? || token.STRLIT?) {
          errcode := SyntaxError;
          return false;
        }
      }
    }

    method ParseLitList(ghost vs: Option<seq<Value>>) returns (ok: bool)
      requires Ready()
      requires vs.Some? ==> LitsEnd(src, Cur(), vs.value).Some?
      modifies `pos, `lineno, `token, `lexum, `heads, `opens, `errcode, `out
      ensures Read(ok)
      ensures vs.Some? ==> Copied(ok, old(out), LitsEnd(src, old(Cur()), vs.value), ValuesPieces(vs.value))
    {
      hide Ready, Due, Risks, Skipper, NextCursor, NextOk, Balance, Head, Callee, ValueEnd, ValuePiece;
      ghost var rest := vs;
      ghost var goal := if vs.Some? then out + ValuesPieces(vs.value) else [];
      ghost var end := if vs.Some? then LitsEnd(src, Cur(), vs.value) else None;
      ok := true;
      if vs.Some? {
        LitsStart(src, Cur(), vs.value);
        rest := if vs.value == [] then None else vs;
      }
      while token.NUM? || token.STRLIT?
        invariant Read(ok) && ok
        invariant rest.Some? ==>
                    && rest.value != [] && end.Some? && LitsEnd(src, Cur(), rest.value) == end
                    && out + ValuesPieces(rest.value) == goal && (token.NUM? || token.STRLIT?)
        invariant vs.Some? && rest.None? ==> end == Some(Cur()) && out == goal && !token.NUM? && !token.STRLIT?
        invariant rest.Some? ==> vs.Some?
        decreases Measure()
      {
        ghost var before := out;
        ok := ParseLitItem(rest);
        if !ok { return; }
        if rest.Some? {
          if |rest.value| == 1 {
            rest := None;
          } else {
            Assoc(before, [ValuePiece(rest.value[0]), Word(",")], ValuesPieces(rest.value[1..]));
            LitsStart(src, Cur(), rest.value[1..]);
            rest := Some(rest.value[1..]);
          }
        }
      }
    }

    /** NOT IN or IN and its list; an IN that is missing after NOT goes unnoticed. */
    method ParseInPredicate(ghost k: Option<Test<Operand>>) returns (ok: bool)
      requires Valid() && (token.NOT? || token.IN?)
      requires k.Some? ==> k.value.Member? && SaidEnd(src, Cur(), k.value).Some?
      modifies this
      ensures Parsed(ok) && (ok ==> Placed(hosts, act) == old(Placed(hosts, act)))
      ensures k.Some? ==>
                && Copied(ok, old(out), SaidEnd(src, old(Cur()), k.value), MemberPieces(k.value.negated, k.value.list))
                && hosts == old(hosts) && acts == old(acts)
      decreases Measure(), 2
    {
      hide Ready, Due, Risks, Skipper, Indexed, NextCursor, NextOk, Balance, Placed, Outer, Head, ListEnd, ListPieces;
      if k.Some? {
        SaidStart(src, Cur(), k.value);
        Assoc(out, NotPieces(k.value.negated, " NOT "), ListPieces(k.value.list));
      }
      if token.NOT? {
        EmitWord(" NOT ");
        ok := Advance();
        if !ok { return; }
      }
      ok := ParseInList(if k.Some? then Some(k.value.list) else None);
    }

    /** IN and its list; `vs` are the literals the source is known to list. */
    method ParseInList(ghost vs: Option<seq<Value>>) returns (ok: bool)
      requires Valid()
      requires vs.Some? ==> ListEnd(src, Cur(), vs.value).Some?
      modifies this
      ensures Parsed(ok) && (ok ==> Placed(hosts, act) == old(Placed(hosts, act)))
      ensures vs.Some? ==>
                && Copied(ok, old(out), ListEnd(src, old(Cur()), vs.value), ListPieces(vs.value))
                && hosts == old(hosts) && acts == old(acts)
      decreases Measure(), 1
    {
      hide Ready, Due, Risks, Skipper, Indexed, NextCursor, NextOk, Balance, Placed, Outer, Head, Callee;
      hide ListEnd, ListPieces;
      if vs.Some? {
        ListStart(src, Cur(), vs.value);
      }
      ok := true;
      if token.IN? {
        ok := ParseIn(vs);
      }
    }

    method ParseIn(ghost vs: Option<seq<Value>>) returns (ok: bool)
      requires Valid() && token.IN?
      requires vs.Some? ==> ListEnd(src, Cur(), vs.value).Some?
      modifies this
      ensures Parsed(ok) && (ok ==> Placed(hosts, act) == old(Placed(hosts, act)))
      ensures vs.Some? ==>
                && Copied(ok, old(out), ListEnd(src, old(Cur()), vs.value), ListPieces(vs.value))
                && hosts == old(hosts) && acts == old(acts)
      decreases Measure(), 0
    {
      hide Ready, Due, Risks, Skipper, Indexed, NextCursor, NextOk, Balance, Placed, Outer, Head, Callee;
      hide LitsEnd, ListHeadEnd, ValuesPieces;
      ok := ParseInHead();
      if !ok { return; }
      ok := ParseInBody(vs);
      if !ok { return; }
      ok := ParseClose();
    }

    /** A SELECT or the literals. */
    method ParseInBody(ghost vs: Option<seq<Value>>) returns (ok: bool)
      requires Valid()
      requires vs.Some? ==> !token.SELECT? && LitsEnd(src, Cur(), vs.value).Some?
      modifies this
      ensures Parsed(ok) && (ok ==> Placed(hosts, act) == old(Placed(hosts, act)))
      ensures vs.Some? ==>
                && Copied(ok, old(out), LitsEnd(src, old(Cur()), vs.value), ValuesPieces(vs.value))
                && hosts == old(hosts) && acts == old(acts)
      decreases Measure(), 11
    {
      hide Ready, Due, Risks, Skipper, Indexed, NextCursor, NextOk, Balance, Placed, Outer, Callee, LitsEnd;
      hide ValuesPieces;
      if token.SELECT? {
        ok := ParseSelect(true, None);
      } else {
        ok := ParseLitList(vs);
      }
    }

    // ------------------------------------------------------------ conditions

    /** What is said of a field: membership or a comparison. */
    method ParsePredicate(n: nat, allowFunctions: bool, wasnull: bool, ghost k: Option<Test<Operand>>)
      returns (ok: bool, next: nat, isnull: bool, inlist: bool)
      requires Valid() && n == Placed(hosts, act)
      requires k.Some? ==> SaidEnd(src, Cur(), k.value).Some?
      modifies this
      ensures Parsed(ok) && (ok ==> next == Placed(hosts, act))
      ensures isnull == (wasnull || old(token).IS?) && (inlist <==> old(token).NOT? || old(token).IN?)
      ensures k.Some? ==> isnull == SeenAfter(k.value, wasnull) && inlist == k.value.Member?
      ensures k.Some? ==>
                if TestRule(k.value, wasnull) && old(Fit(TestVars(k.value))) then Wrote(
                  ok, old(Sofar()), SaidEnd(src, old(Cur()), k.value),
                  SaidPieces(TranslateTest(k.value, lookup, n, act)), TestVars(k.value), n, next)
                else !ok
      decreases Measure(), 3
    {
      hide Ready, Due, Risks, Skipper, Indexed, NextCursor, NextOk, Balance, Placed, Outer, Room, Head, Callee;
      hide SaidEnd, TranslateOperand, ComparePieces, MemberPieces, OperandVars, HostsFor;
      if k.Some? {
        SaidStart(src, Cur(), k.value);
        NoHosts(lookup, n, act);
        RoomNone(lookup, hosts);
      }
      if token.NOT? || token.IN? {
        next, isnull, inlist := n, wasnull, true;
        ok := ParseInPredicate(k);
      } else {
        inlist := false;
        ok, next, isnull := ParseComparison(n, allowFunctions, wasnull, k);
      }
    }

    /** A field and what is said of it; `k` is the condition the source is known
        to spell, if it is known. */
    method ParseCondition(n: nat, allowFunctions: bool, wasnull: bool, ghost k: Option<Cond<Operand>>)
      returns (ok: bool, next: nat, isnull: bool, inlist: bool)
      requires Valid() && n == Placed(hosts, act)
      requires k.Some? ==> TestEnd(src, Cur(), k.value).Some?
      modifies this
      ensures Parsed(ok) && (ok ==> next == Placed(hosts, act) && Measure() < old(Measure()))
      ensures k.Some? && ok ==> isnull == SeenAfter(k.value.test, wasnull) && inlist == k.value.test.Member?
      ensures k.Some? ==>
                if TestRule(k.value.test, wasnull) && old(Fit(TestVars(k.value.test))) then Wrote(
                  ok, old(Sofar()), TestEnd(src, old(Cur()), k.value),
                  TestPieces(TranslateCond(k.value, lookup, n, act)), TestVars(k.value.test), n, next)
                else !ok
      decreases Measure(), 1
    {
      hide Ready, Due, Risks, Skipper, Indexed, NextCursor, NextOk, Balance, Placed, Outer, Room, Head;
      hide Callee, TestRule, SeenAfter;
      hide SaidEnd, TranslateTest, SaidPieces, TestVars, HostsFor, ReadField, FieldPieces, NamePieces;
      if k.Some? {
        Assoc(out, NamePieces(k.value.column), SaidPieces(TranslateTest(k.value.test, lookup, n, act)));
      }
      ok := ParseField(false);
      if !ok {
        next, isnull, inlist := n, wasnull, false;
        return;
      }
      ghost var test := if k.Some? then Some(k.value.test) else None;
      ok, next, isnull, inlist := ParsePredicate(n, allowFunctions, wasnull, test);
    }

    /** The parenthesis after a condition.  `done` stops the chain at a ')' that is
        none of its own. */
    method ParseTrailingRpar(paradepth: nat, ignoreTrailingRpar: bool, ghost n: nat)
      returns (ok: bool, done: bool, depth: nat)
      requires Ready() && Balance(out) >= paradepth
      modifies `pos, `lineno, `token, `lexum, `heads, `opens, `errcode, `out
      ensures Ready() && Measure() <= old(Measure()) && heads >= old(heads) && opens >= old(opens)
      ensures ok ==> Balance(out) - depth == old(Balance(out)) - paradepth && (done ==> depth == 0)
      ensures ok ==> Slack() - depth >= old(Slack()) - paradepth
      ensures !old(token).RPAR? ==> ok && !done && depth == paradepth && At(depth, n) == old(At(paradepth, n))
      ensures old(token).RPAR? && paradepth > 0 ==>
                && !done && depth == paradepth - 1 && ok == NextOk(src, old(Cur()))
                && (ok ==> At(depth, n) == PastTail(old(At(paradepth, n)), true))
      ensures Even(ok, 0)
    {
      hide Ready, Due, Risks, Skipper, NextCursor, NextOk, Balance, Head;
      ok, done, depth := true, false, paradepth;
      if token.RPAR? {
        if paradepth == 0 {
          if !ignoreTrailingRpar {
            errcode := UnexpRpar;
            ok := false;
            return;
          }
          done := true;
          return;
        }
        depth := paradepth - 1;
        EmitClose();
        EmitWord(" ");
        ok := Advance();
      }
    }

    /** AND or OR, or the end of the chain. */
    method ParseConjunction(ghost depth: nat, ghost n: nat) returns (ok: bool, done: bool)
      requires Ready()
      modifies `pos, `lineno, `token, `lexum, `heads, `opens, `errcode, `out
      ensures Read(ok)
      ensures done <==> !Conjunction(old(token))
      ensures done ==> ok && At(depth, n) == old(At(depth, n))
      ensures !done ==> ok == NextOk(src, old(Cur())) && Measure() < old(Measure())
      ensures !done && ok ==> At(depth, n) == PastJoin(old(At(depth, n)))
    {
      hide Ready, Due, Risks, Skipper, NextCursor, NextOk, Balance, Head;
      ok, done := true, !token.AND? && !token.OR?;
      if done { return; }
      EmitWord(lexum);
      ok := Advance();
      if !ok { return; }
      EmitWord(" ");
    }

    /** The '(' before a condition. */
    method ParseOpenPar(paradepth: nat) returns (ok: bool, depth: nat)
      requires Ready()
      modifies `pos, `lineno, `token, `lexum, `heads, `opens, `errcode, `out
      ensures Ready() && Measure() <= old(Measure()) && heads >= old(heads) && opens >= old(opens)
      ensures Balance(out) - depth == old(Balance(out)) - paradepth
      ensures Slack() - depth >= old(Slack()) - paradepth
      ensures depth == paradepth + if old(token).LPAR? then 1 else 0
      ensures ok == OpenEnd(src, old(Cur()), old(token).LPAR?).Some?
      ensures ok ==> Copied(
                ok, old(out), OpenEnd(src, old(Cur()), old(token).LPAR?), OpenPieces(old(token).LPAR?))
      ensures Even(ok, 0)
    {
      hide Ready, Due, Risks, Skipper, NextCursor, NextOk, Balance, Head;
      ok, depth := true, paradepth;
      if token.LPAR? {
        Emit(Open);
        ok := Advance();
        depth := paradepth + 1;
      }
    }

    lemma NotNegative()
      requires Ready()
      ensures Balance(out) >= 0
    {
    }

    /** What is read, seen from here. */
    ghost function At(depth: nat, n: nat): Reader
      reads `pos, `token, `lexum, `out, `hosts, `lookup, `act, `acts
    {
      Reader(src, Cur(), depth, out, hosts, lookup, act, acts, n)
    }

    /** The end of an iteration: ')' and AND, OR or the end of the chain.  `close`
        says whether a ')' is to be read, if it is known. */
    method ParseConditionTail(paradepth: nat, ignoreTrailingRpar: bool, ghost close: Option<bool>, ghost n: nat)
      returns (ok: bool, done: bool, depth: nat)
      requires Ready() && Balance(out) >= paradepth
      requires close == Some(true) ==> token.RPAR? && NextOk(src, Cur()) && paradepth > 0
      requires close == Some(false) ==> !token.RPAR?
      modifies `pos, `lineno, `token, `lexum, `heads, `opens, `errcode, `out, `leftover
      ensures Skimmed(false) && leftover >= old(leftover)
      ensures ok ==> Settled(if done then 0 else depth, paradepth)
      ensures ok && !done ==> Balance(out) >= depth
      ensures close.Some? ==> Tailed(PastTail(old(At(paradepth, n)), close.value), ok, done, At(depth, n))
      ensures Even(ok, 0)
    {
      hide Ready, Due, Risks, Skipper, NextCursor, NextOk, Balance, Head, Callee, PastJoin, PastTail, Conjunction;
      PastTailNone(At(paradepth, n));
      ok, done, depth := ParseTrailingRpar(paradepth, ignoreTrailingRpar, n);
      if !ok || done { return; }
      ok, done := ParseConjunction(depth, n);
      if ok && done {
        leftover := leftover + depth;
      }
    }

    /** The beginning of an iteration: '(' and the condition. */
    method ParseConditionHead(
      n: nat, allowFunctions: bool, wasnull: bool, paradepth: nat, ghost k: Option<Cond<Operand>>)
      returns (ok: bool, next: nat, isnull: bool, inlist: bool, depth: nat)
      requires Valid() && n == Placed(hosts, act) && Balance(out) >= paradepth
      requires k.Some? ==> Readable(At(paradepth, n), k.value)
      modifies this
      ensures Parsed(false) && (ok ==> next == Placed(hosts, act) && Measure() < old(Measure()))
      ensures ok ==> Settled(depth, paradepth) && Balance(out) >= depth
      ensures k.Some? ==>
                if CondPasses(old(At(paradepth, n)), k.value, wasnull) then
                  && ok && isnull == SeenAfter(k.value.test, wasnull) && inlist == k.value.test.Member?
                  && At(depth, next) == PastHead(old(At(paradepth, n)), k.value)
                else !ok
      ensures Even(ok, 0)
      decreases Measure(), 2
    {
      hide Ready, Due, Risks, Skipper, Indexed, NextCursor, NextOk, Balance, Placed, Outer, Head, Callee, Room;
      hide TestEnd, TranslateCond, TestPieces, TestVars, HostsFor, Readable, PastHead, OpenPieces, TestRule, SeenAfter;
      next, isnull, inlist := n, wasnull, false;
      if k.Some? {
        HeadParts(At(paradepth, n), k.value);
      }
      ok, depth := ParseOpenPar(paradepth);
      if !ok { return; }
      ok, next, isnull, inlist := ParseCondition(n, allowFunctions, wasnull, k);
    }

    /** The goal of a chain is reached. */
    ghost predicate Reached(goal: Goal, next: nat)
      reads `pos, `token, `lexum, `out, `hosts
    {
      Cur() == goal.end && out == goal.out && hosts == goal.hosts && next == goal.next
    }

    /** One iteration of the loop of parseConditions; `k` is the condition the source
        is known to spell, if it is known. */
    method ParseIteration(
      n: nat, allowFunctions: bool, wasnull: bool, paradepth: nat, ignoreTrailingRpar: bool,
      ghost k: Option<Cond<Operand>>)
      returns (ok: bool, done: bool, next: nat, isnull: bool, depth: nat)
      requires Valid() && n == Placed(hosts, act) && Balance(out) >= paradepth
      requires k.Some? ==> Readable(At(paradepth, n), k.value)
      modifies this
      ensures Parsed(false) && (ok ==> next == Placed(hosts, act) && Measure() < old(Measure()))
      ensures ok ==> Settled(if done then 0 else depth, paradepth)
      ensures ok && !done ==> Balance(out) >= depth
      ensures k.Some? ==> Stepped(
                k.value, wasnull, old(At(paradepth, n)), ok, done, isnull, At(depth, next))
      ensures Even(ok, 0)
      decreases Measure(), 3
    {
      hide Ready, Due, Risks, Risk, Drift, Skipper, Indexed, NextCursor, NextOk, Balance, Placed, Outer, Head;
      hide Callee, Readable, CondPasses, SeenAfter;
      hide PastHead, PastTail, PastCond, Tailed, CondEnd;
      if k.Some? {
        HeadAhead(At(paradepth, n), k.value);
      }
      var inlist;
      done := false;
      ok, next, isnull, inlist, depth := ParseConditionHead(n, allowFunctions, wasnull, paradepth, k);
      if ok && !inlist {
        ghost var close := if k.Some? then Some(k.value.close) else None;
        ok, done, depth := ParseConditionTail(depth, ignoreTrailingRpar, close, next);
      }
    }

    /** The same, on the way through a chain; no `more` is left where the chain ends
        with a list. */
    method ConditionStep(
      n: nat, allowFunctions: bool, wasnull: bool, paradepth: nat, ignoreTrailingRpar: bool,
      ghost rest: Option<Chain<Operand>>, ghost goal: Goal)
      returns (ok: bool, done: bool, next: nat, isnull: bool, depth: nat, ghost more: Option<Chain<Operand>>)
      requires Valid() && n == Placed(hosts, act) && Balance(out) >= paradepth
      requires rest.Some? ==> Underway(At(paradepth, n), rest.value, goal)
      modifies this
      ensures Parsed(false) && (ok ==> next == Placed(hosts, act) && Measure() < old(Measure()))
      ensures ok ==> Settled(if done then 0 else depth, paradepth)
      ensures ok && !done ==> Balance(out) >= depth
      ensures rest.Some? && !ok ==> !Passes(old(At(paradepth, n)), rest.value, wasnull)
      ensures rest.Some? && ok ==> acts == old(acts)
      ensures rest.Some? && ok && done ==> Passes(old(At(paradepth, n)), rest.value, wasnull) && Reached(goal, next)
      ensures rest.Some? && ok && !done && more.Some? ==>
                && Underway(At(depth, next), more.value, goal)
                && Passes(old(At(paradepth, n)), rest.value, wasnull) == Passes(At(depth, next), more.value, isnull)
      ensures rest.Some? && ok && !done && more.None? ==>
                && Reached(goal, next) && Leaves(token)
                && (Passes(old(At(paradepth, n)), rest.value, wasnull) <==> depth == 0)
      ensures rest.None? ==> more.None?
      ensures Even(ok, 0)
      decreases Measure(), 4
    {
      hide Ready, Due, Risks, Skipper, Indexed, NextCursor, NextOk, Balance, Placed, Outer, Head, Callee;
      hide Settled, Readable;
      hide PastHead, PastTail, Underway, Passes, CondPasses, SeenAfter, Stops, Conjunction, Leaves;
      more := None;
      if rest.Some? {
        ChainAhead(At(paradepth, n), rest.value, wasnull, goal);
        more := if rest.value.Join? then Some(rest.value.rest) else None;
      }
      ok, done, next, isnull, depth :=
        ParseIteration(n, allowFunctions, wasnull, paradepth, ignoreTrailingRpar,
                       if rest.Some? then Some(rest.value.cond) else None);
    }

    /** What a chain that is under way says of its next condition. */
    lemma ChainAhead(r: Reader, rest: Chain<Operand>, seen: bool, goal: Goal)
      requires Underway(r, rest, goal)
      ensures Readable(r, rest.cond)
      ensures var b, s := PastCond(r, rest.cond), SeenAfter(rest.cond.test, seen);
              && b.acts == r.acts
              && (rest.Last? ==>
                    && b.cursor == goal.end && b.out == goal.out && b.n == goal.next && b.hosts == goal.hosts
                    && (Passes(r, rest, seen) <==>
                          CondPasses(r, rest.cond, seen) && (rest.cond.test.Member? ==> b.depth == 0))
                    && if rest.cond.test.Member? then Leaves(b.cursor.token) else Stops(b.cursor.token))
              && (rest.Join? && rest.cond.test.Compare? ==>
                    && Conjunction(b.cursor.token) && NextOk(r.src, b.cursor)
                    && Underway(PastJoin(b), rest.rest, goal)
                    && (Passes(r, rest, seen) <==>
                          CondPasses(r, rest.cond, seen) && Passes(PastJoin(b), rest.rest, s)))
              && (rest.Join? && rest.cond.test.Member? ==>
                    && Underway(b, rest.rest, goal)
                    && (Passes(r, rest, seen) <==> CondPasses(r, rest.cond, seen) && Passes(b, rest.rest, s)))
    {
      hide Readable, Underway, PastCond, PastJoin, Stops, Conjunction, Leaves, NextOk, CondPieces, Passes, CondPasses;
      hide SeenAfter;
      UnderwayHead(r, rest, goal);
      PastCondActs(r, rest.cond);
      HeadDepth(r, rest.cond);
      PassesNext(r, rest, seen);
      if rest.Join? {
        UnderwayNext(r, rest, goal);
      } else {
        UnderwayLast(r, rest, goal);
      }
    }

    lemma HeadDepth(r: Reader, k: Cond<Operand>)
      requires Readable(r, k)
      ensures DepthAfter(k, r.depth) >= 0
    {
      hide CondEnd;
    }

    /** parseConditions.  `chain` is a condition chain that the source is known to
        spell from the current token on, if one is known: then it is accepted exactly
        when the rule of chains says so and its variables are declared and find room,
        and if it is, it is consumed exactly and its translation is what is written. */
    method ParseConditions(
      n: nat, allowFunctions: bool, ignoreTrailingRpar: bool, ghost chain: Option<Chain<Operand>>)
      returns (ok: bool, next: nat)
      requires Valid() && n == Placed(hosts, act)
      requires chain.Some? ==> ChainEnd(src, Cur(), chain.value, 0).Some?
      modifies this
      ensures Parsed(ok) && (ok ==> next == Placed(hosts, act))
      ensures chain.Some? ==>
                if ChainRule(chain.value, false, 0) && old(Fit(ChainVars(chain.value))) then Wrote(
                  ok, old(Sofar()), ChainEnd(src, old(Cur()), chain.value, 0),
                  ChainPieces(Translate(chain.value, lookup, n, act)), ChainVars(chain.value), n, next)
                else !ok
      decreases Measure(), 5
    {
      hide Ready, Due, Risks, Skipper, Indexed, NextCursor, NextOk, Balance, Placed, Outer, Room, Head, Callee;
      hide ChainEnd, ChainPieces, Translate, ChainVars, HostsFor, ChainRule;
      ghost var vs := if chain.Some? then ChainVars(chain.value) else [];
      ghost var goal := if chain.None? then Goal(Cur(), [], 0, [])
        else Goal(ChainEnd(src, Cur(), chain.value, 0).value, out + ChainPieces(Translate(chain.value, lookup, n, act)),
                  n + |vs|, hosts + HostsFor(vs, lookup, n, act));
      ghost var rest := chain;
      assert chain.Some? ==> Underway(At(0, n), chain.value, goal);
      ghost var passes := chain.Some? && ChainRule(chain.value, false, 0) && Fit(ChainVars(chain.value));
      assert chain.Some? ==> passes == Passes(At(0, n), chain.value, false);
      hide Underway, Passes;
      NotNegative();
      var paradepth, isnull := 0, false;
      ok, next := true, n;
      while token.ID? || token.LPAR?
        invariant Parsed(false) && Even(ok, 0) && ok && next == Placed(hosts, act)
        invariant Settled(paradepth, 0) && Balance(out) >= paradepth
        invariant chain.Some? ==> acts == old(acts)
        invariant rest.Some? ==>
                    && chain.Some? && Underway(At(paradepth, next), rest.value, goal)
                    && passes == Passes(At(paradepth, next), rest.value, isnull)
        invariant chain.Some? && rest.None? ==>
                    && Reached(goal, next) && !token.ID? && !token.LPAR?
                    && (passes <==> paradepth == 0)
        decreases Measure()
      {
        var done;
        ok, done, next, isnull, paradepth, rest :=
          ConditionStep(next, allowFunctions, isnull, paradepth, ignoreTrailingRpar, rest, goal);
        if !ok || done { return; }
      }
      if rest.Some? {
        ChainStarts(At(paradepth, next), rest.value, goal);
      }
      if paradepth != 0 {
        errcode := ExpRpar;
        ok := false;
      }
    }

    /** A chain that is under way begins with a field or a '('. */
    lemma ChainStarts(r: Reader, rest: Chain<Operand>, goal: Goal)
      requires Underway(r, rest, goal)
      ensures r.cursor.token.ID? || r.cursor.token.LPAR?
    {
      hide Readable, Underway;
      UnderwayHead(r, rest, goal);
      HeadStart(r, rest.cond);
    }

    // ------------------------------------------------------------ CASE

    /** ELSE and its literal. */
    method ParseElse() returns (ok: bool)
      requires Ready() && token.ELSE?
      modifies `pos, `lineno, `token, `lexum, `heads, `opens, `errcode, `out
      ensures Read(ok) && Measure() < old(Measure())
    {
      hide Ready, Due, Risks, Skipper, NextCursor, NextOk, Balance, Head;
      EmitWord(" ");
      ok := Advance();
      if !ok { return; }
      ok := ParseLit(false);
    }

    /** THEN and its literal or function. */
    method ParseThen() returns (ok: bool)
      requires Ready()
      modifies `pos, `lineno, `token, `lexum, `heads, `opens, `errcode, `out, `ufields
      ensures Read(ok)
    {
      hide Ready, Due, Risks, Skipper, NextCursor, NextOk, Balance, Head, FunctionEnd, FunctionPieces;
      if !token.THEN? {
        errcode := ExpThen;
        return false;
      }
      EmitWord(" THEN ");
      ok := Advance();
      if !ok { return; }
      if token.STRLIT? || token.NUM? {
        ok := ParseLit(false);
      } else if token.FUNC? {
        ok := ParseFunction();
      } else {
        errcode := ExpValue;
        ok := false;
      }
    }

    /** WHEN and its conditions, and what follows THEN. */
    method ParseWhen(n: nat) returns (ok: bool, next: nat)
      requires Valid() && n == Placed(hosts, act) && token.WHEN?
      modifies this
      ensures Parsed(ok) && (ok ==> next == Placed(hosts, act)) && Measure() < old(Measure())
      decreases Measure(), 0
    {
      hide Ready, Due, Risks, Skipper, Indexed, NextCursor, NextOk, Balance, Placed, Outer, Head, Room;
      next := n;
      ok := ParseKeyword(" ");
      if !ok { return; }
      ok, next := ParseConditions(n, false, false, None);
      if !ok { return; }
      ok := ParseThen();
    }

    method ParseCaseHead() returns (ok: bool)
      requires Ready() && token.CASE?
      modifies `pos, `lineno, `token, `lexum, `heads, `opens, `errcode, `out
      ensures Read(ok) && Measure() < old(Measure())
    {
      hide Ready, Due, Risks, Skipper, NextCursor, NextOk, Balance, Head;
      EmitWord(" CASE ");
      ok := Expect(WHEN, ExpWhen);
    }

    method ParseCaseEnd() returns (ok: bool)
      requires Ready()
      modifies `pos, `lineno, `token, `lexum, `heads, `opens, `errcode, `out
      ensures Read(ok)
    {
      hide Ready, Due, Risks, Skipper, NextCursor, NextOk, Balance, Head;
      if !token.END? {
        errcode := ExpEnd;
        return false;
      }
      EmitWord(" END ");
      ok := Advance();
    }

    method ParseCase(n: nat) returns (ok: bool, next: nat)
      requires Valid() && n == Placed(hosts, act) && token.CASE?
      modifies this
      ensures Parsed(ok) && (ok ==> next == Placed(hosts, act)) && Measure() < old(Measure())
      decreases Measure(), 0
    {
      hide Ready, Due, Risks, Skipper, Indexed, NextCursor, NextOk, Balance, Placed, Outer, Head, Callee;
      next := n;
      ok := ParseCaseHead();
      if !ok { return; }
      ok, next := ParseWhens(n);
      if !ok { return; }
      ok := ParseCaseEnd();
    }

    method EmitBranch()
      requires Ready()
      modifies `out
      ensures Ready() && Balance(out) == old(Balance(out)) && out == old(out) + [Word(" "), Word(lexum)]
    {
      hide Ready, Due, Risks, Skipper, Balance;
      EmitWord(" ");
      EmitWord(lexum);
    }

    /** One WHEN or ELSE of a CASE; `elses` counts the ELSEs seen. */
    method ParseBranch(n: nat, elses: nat) returns (ok: bool, next: nat, count: nat)
      requires Valid() && n == Placed(hosts, act) && (token.WHEN? || token.ELSE?)
      modifies this
      ensures Parsed(ok) && (ok ==> next == Placed(hosts, act) && Measure() < old(Measure()))
      ensures ok ==> count == elses + (if old(token).ELSE? then 1 else 0) && (old(token).ELSE? ==> elses == 0)
      decreases Measure(), 1
    {
      hide Ready, Due, Risks, Skipper, Indexed, NextCursor, NextOk, Balance, Placed, Outer, Head, Callee;
      next, count := n, elses;
      EmitBranch();
      if token.ELSE? {
        count := elses + 1;
        if count > 1 {
          errcode := OnlyOneElse;
          ok := false;
          return;
        }
        ok := ParseElse();
      } else {
        ok, next := ParseWhen(n);
      }
    }

    /** The WHENs and at most one ELSE, in any order. */
    method ParseWhens(n: nat) returns (ok: bool, next: nat)
      requires Valid() && n == Placed(hosts, act)
      modifies this
      ensures Parsed(ok) && (ok ==> next == Placed(hosts, act))
      decreases Measure(), 2
    {
      hide Ready, Due, Risks, Skipper, Indexed, NextCursor, NextOk, Balance, Placed, Outer, Head, Callee;
      ok, next := true, n;
      var elsecount := 0;
      while token.WHEN? || token.ELSE?
        invariant Parsed(ok) && ok && next == Placed(hosts, act)
        decreases Measure()
      {
        ok, next, elsecount := ParseBranch(next, elsecount);
        if !ok { return; }
      }
    }

    // ------------------------------------------------------------ WHERE and HAVING

    /** The keyword of a clause, as the translator writes it. */
    method ParseKeyword(text: string) returns (ok: bool)
      requires Ready() && !token.EOS? && !Callee(token) && Paren(token) == 0
      modifies `pos, `lineno, `token, `lexum, `heads, `opens, `errcode, `out
      ensures Read(ok) && Measure() < old(Measure()) && heads == old(heads) + (if Head(old(token)) then 1 else 0)
      ensures ok ==> opens - (if token.LPAR? then 1 else 0) >= old(opens)
      ensures ok == NextOk(src, old(Cur()))
      ensures ok ==> Copied(ok, old(out), Skip(src, old(Cur())), [Word(text)])
      ensures Risk() == old(Risk()) - if Skipper(old(Cur()), strict) then 1 else 0
    {
      hide Ready, Due, Risks, Skipper, NextCursor, NextOk, Balance, Head, Callee;
      EmitWord(text);
      ok := Advance();
    }

    method ParseWhere(n: nat, ignoreTrailingRpar: bool, ghost w: Option<Option<Chain<Operand>>>)
      returns (ok: bool, next: nat)
      requires Valid() && n == Placed(hosts, act)
      requires w.Some? ==> ClauseEnd(src, Cur(), WHERE, w.value).Some?
      modifies this
      ensures Parsed(ok) && (ok ==> next == Placed(hosts, act) && opens - leftover >= old(opens - leftover))
      ensures w.Some? ==>
                if ClauseRule(w.value) && old(Fit(ClauseVars(w.value))) then Wrote(
                  ok, old(Sofar()), ClauseEnd(src, old(Cur()), WHERE, w.value),
                  ClausePieces(" WHERE ", w.value, lookup, n, act), ClauseVars(w.value), n, next)
                else !ok
      decreases Measure(), 0
    {
      hide Ready, Due, Risks, Skipper, Indexed, NextCursor, NextOk, Balance, Placed, Outer, Room, Head;
      hide ChainEnd, ChainPieces, Translate, ChainVars, ChainRule;
      ok, next := true, n;
      RoomNone(lookup, hosts);
      if w.Some? && w.value.Some? {
        Assoc(out, [Word(" WHERE ")], ChainPieces(Translate(w.value.value, lookup, n, act)));
      }
      if token.WHERE? {
        ok := ParseKeyword(" WHERE ");
        if !ok { return; }
        ok, next := ParseConditions(n, false, ignoreTrailingRpar, if w.Some? then w.value else None);
      }
    }

    method ParseHaving(n: nat, ghost w: Option<Option<Chain<Operand>>>) returns (ok: bool, next: nat)
      requires Valid() && n == Placed(hosts, act)
      requires w.Some? ==> ClauseEnd(src, Cur(), HAVING, w.value).Some?
      modifies this
      ensures Parsed(ok) && (ok ==> next == Placed(hosts, act))
      ensures w.Some? ==>
                if ClauseRule(w.value) && old(Fit(ClauseVars(w.value))) then Wrote(
                  ok, old(Sofar()), ClauseEnd(src, old(Cur()), HAVING, w.value),
                  ClausePieces(" HAVING ", w.value, lookup, n, act), ClauseVars(w.value), n, next)
                else !ok
      decreases Measure(), 0
    {
      hide Ready, Due, Risks, Skipper, Indexed, NextCursor, NextOk, Balance, Placed, Outer, Room, Head;
      hide ChainEnd, ChainPieces, Translate, ChainVars, ChainRule;
      ok, next := true, n;
      RoomNone(lookup, hosts);
      if w.Some? && w.value.Some? {
        Assoc(out, [Word(" HAVING ")], ChainPieces(Translate(w.value.value, lookup, n, act)));
      }
      if token.HAVING? {
        ok := ParseKeyword(" HAVING ");
        if !ok { return; }
        ok, next := ParseConditions(n, true, false, if w.Some? then w.value else None);
      }
    }

    // ------------------------------------------------------------ FROM

    /** A define name; only defines are allowed, so '=' goes in front. */
    method EmitDefine()
      requires Ready()
      modifies `out
      ensures Ready() && Balance(out) == old(Balance(out)) && out == old(out) + DefinePieces(lexum)
    {
      hide Ready, Due, Risks, Skipper, Balance;
      if lexum == "" || lexum[0] != '=' {
        EmitWord("=");
      }
      EmitWord(lexum);
    }

    /** A define name and the bare name as its alias. */
    method EmitTable()
      requires Ready()
      modifies `out
      ensures Ready() && Balance(out) == old(Balance(out)) && out == old(out) + TablePieces(lexum)
    {
      hide Ready, Due, Risks, Skipper, Balance, DefinePieces;
      EmitDefine();
      EmitWord(" ");
      EmitWord(if lexum != "" && lexum[0] == '=' then lexum[1..] else lexum);
    }

    /** From INNER, LEFT or RIGHT over JOIN to the table. */
    method ParseJoinWords() returns (ok: bool)
      requires Ready() && JoinKind(token)
      modifies `pos, `lineno, `token, `lexum, `heads, `opens, `errcode, `out
      ensures Skimmed(ok) && Measure() < old(Measure())
      ensures var j := NextCursor(src, old(Cur()));
              ok <==> NextOk(src, old(Cur())) && j.token.JOIN? && NextOk(src, j) && NextCursor(src, j).token.ID?
      ensures ok ==>
                && Cur() == NextCursor(src, NextCursor(src, old(Cur())))
                && out == old(out) + [Word(old(lexum)), Word(" JOIN ")]
      ensures Even(ok, 0)
    {
      hide Ready, Due, Risks, Skipper, NextCursor, NextOk, Balance, Head, Callee;
      EmitWord(lexum);
      EmitWord(" JOIN ");
      ok := Expect(JOIN, ExpJoin);
      if !ok { return; }
      ok := Expect(ID, ExpTable);
    }

    /** "ON (" */
    method ParseOn() returns (ok: bool)
      requires Ready() && token.ID?
      modifies `pos, `lineno, `token, `lexum, `heads, `opens, `errcode, `out
      ensures Ready() && Measure() <= old(Measure()) && heads >= old(heads) && opens >= old(opens)
      ensures ok ==> Balance(out) == old(Balance(out)) + 1 > 0 && Slack() >= old(Slack())
      ensures ok <==> SkipTo(src, old(Cur()), ON).Some? && NextOk(src, NextCursor(src, old(Cur())))
      ensures ok ==>
                Cur() == NextCursor(src, NextCursor(src, old(Cur()))) && out == old(out) + [Word(" ON "), Open]
      ensures Even(ok, 1)
    {
      hide Ready, Due, Risks, Skipper, NextCursor, NextOk, Balance, Head;
      ok := Expect(ON, ExpOn);
      if !ok { return; }
      EmitWord(" ON ");
      Emit(Open);
      ok := Advance();
    }

    /** A join up to its conditions. */
    method ParseJoinHead(ghost j: Option<Joining>) returns (ok: bool)
      requires Ready() && JoinKind(token)
      requires j.Some? ==> JoinHeadEnd(src, Cur(), j.value).Some?
      modifies `pos, `lineno, `token, `lexum, `heads, `opens, `errcode, `out
      ensures Ready() && Measure() < old(Measure()) && heads >= old(heads) && opens >= old(opens)
      ensures ok ==> Balance(out) == old(Balance(out)) + 1 > 0 && Slack() >= old(Slack())
      ensures j.Some? ==> Copied(ok, old(out), JoinHeadEnd(src, old(Cur()), j.value), JoinHeadPieces(j.value))
      ensures Even(ok, 1)
    {
      hide Ready, Due, Risks, Skipper, NextCursor, NextOk, Balance, Head, Callee, TablePieces;
      if j.Some? {
        ghost var words, table := [Word(j.value.text), Word(" JOIN ")], TablePieces(j.value.table);
        Assoc(out, words, table);
        Assoc(out, words + table, [Word(" ON "), Open]);
      }
      ok := ParseJoinWords();
      if !ok { return; }
      EmitTable();
      ok := ParseOn();
    }

    method EmitCloseJoin()
      requires Ready() && Balance(out) > 0
      modifies `out
      ensures Ready() && Balance(out) == old(Balance(out)) - 1 && out == old(out) + [Close, Word(" ")]
    {
      hide Ready, Due, Risks, Skipper, Balance;
      EmitClose();
      EmitWord(" ");
    }

    method ParseJoinLhs(n: nat, ghost j: Option<Joining>) returns (ok: bool, next: nat)
      requires Valid() && n == Placed(hosts, act) && JoinKind(token)
      requires j.Some? ==> JoinEnd(src, Cur(), j.value).Some?
      modifies this
      ensures Parsed(ok) && (ok ==> next == Placed(hosts, act)) && Measure() < old(Measure())
      ensures j.Some? ==>
                if ChainRule(j.value.on, false, 0) && old(Fit(ChainVars(j.value.on))) then Wrote(
                  ok, old(Sofar()), JoinEnd(src, old(Cur()), j.value), JoinPieces(j.value, lookup, n, act),
                  ChainVars(j.value.on), n, next)
                else !ok
      decreases Measure(), 0
    {
      hide Ready, Due, Risks, Skipper, Indexed, NextCursor, NextOk, Balance, Placed, Outer, Room, Head;
      hide Callee, JoinKind;
      hide JoinHeadEnd, JoinHeadPieces, ChainEnd, ChainPieces, Translate, ChainVars, ChainRule;
      next := n;
      if j.Some? {
        ghost var head, on := JoinHeadPieces(j.value), ChainPieces(Translate(j.value.on, lookup, n, act));
        Assoc(out, head, on);
        Assoc(out, head + on, [Close, Word(" ")]);
      }
      ok := ParseJoinHead(j);
      if !ok { return; }
      ok, next := ParseConditions(n, false, false, if j.Some? then Some(j.value.on) else None);
      if !ok { return; }
      EmitCloseJoin();
    }

    /** The joins are accepted. */
    ghost predicate JoinsPass(js: seq<Joining>)
      reads `lookup, `hosts
    {
      JoinsRule(js) && Fit(JoinsVars(js))
    }

    /** The joins that are left, on the way to the goal. */
    ghost predicate JoinsAhead(n: nat, js: seq<Joining>, goal: Goal)
      reads `pos, `token, `lexum, `out, `hosts, `lookup, `act, `acts
    {
      Aims(At(0, n), JoinsEnd(src, Cur(), js), JoinsPieces(js, lookup, n, act), JoinsVars(js), goal)
    }

    /** One join of those that are left. */
    method ParseNextJoin(n: nat, ghost js: Option<seq<Joining>>, ghost goal: Goal)
      returns (ok: bool, next: nat, ghost rest: Option<seq<Joining>>)
      requires Valid() && n == Placed(hosts, act) && JoinKind(token)
      requires js.Some? ==> JoinsAhead(n, js.value, goal)
      modifies this
      ensures Parsed(ok) && (ok ==> next == Placed(hosts, act)) && Measure() < old(Measure())
      ensures rest.Some? <==> js.Some?
      ensures js.Some? && !ok ==> !old(JoinsPass(js.value))
      ensures js.Some? && ok ==>
                && JoinsAhead(next, rest.value, goal) && acts == old(acts)
                && old(JoinsPass(js.value)) == JoinsPass(rest.value)
      decreases Measure(), 1
    {
      hide Ready, Due, Risks, Skipper, Indexed, NextCursor, NextOk, Balance, Placed, Outer, Room, Head, Callee, Aims;
      hide JoinEnd, JoinPieces, ChainVars, HostsFor, ChainRule;
      rest := js;
      ghost var r := At(0, n);
      if js.Some? {
        AimsEnd(r, JoinsEnd(src, Cur(), js.value), JoinsPieces(js.value, lookup, n, act), JoinsVars(js.value), goal);
        RoomSplit(ChainVars(js.value[0].on), JoinsVars(js.value[1..]), lookup, hosts, n, act);
        rest := Some(js.value[1..]);
      }
      ok, next := ParseJoinLhs(n, if js.Some? then Some(js.value[0]) else None);
      if js.Some? && ok {
        AimsOn(r, At(0, next), JoinsEnd(src, r.cursor, js.value),
               JoinPieces(js.value[0], lookup, n, act), JoinsPieces(js.value[1..], lookup, next, act),
               ChainVars(js.value[0].on), JoinsVars(js.value[1..]), goal);
      }
    }

    method ParseJoins(n: nat, ghost js: Option<seq<Joining>>, ghost goal: Goal) returns (ok: bool, next: nat)
      requires Valid() && n == Placed(hosts, act)
      requires js.Some? ==> JoinsAhead(n, js.value, goal)
      modifies this
      ensures Parsed(ok) && (ok ==> next == Placed(hosts, act))
      ensures js.Some? ==>
                if old(JoinsPass(js.value)) then ok && Reached(goal, next) && acts == old(acts) else !ok
      decreases Measure(), 2
    {
      hide Ready, Due, Risks, Skipper, Indexed, NextCursor, NextOk, Balance, Placed, Outer, Head, Callee;
      hide JoinsAhead, JoinsPass;
      ok, next := true, n;
      ghost var rest := js;
      while JoinKind(token)
        invariant Parsed(ok) && ok && next == Placed(hosts, act)
        invariant rest.Some? <==> js.Some?
        invariant rest.Some? ==>
                    && JoinsAhead(next, rest.value, goal) && acts == old(acts)
                    && old(JoinsPass(js.value)) == JoinsPass(rest.value)
        decreases Measure()
      {
        ok, next, rest := ParseNextJoin(next, rest, goal);
        if !ok { return; }
      }
      if rest.Some? {
        JoinsDone(next, rest.value, goal);
      }
    }

    /** Without a join in hand there is none left. */
    lemma JoinsDone(n: nat, js: seq<Joining>, goal: Goal)
      requires JoinsAhead(n, js, goal) && !JoinKind(token)
      ensures Reached(goal, n) && JoinsPass(js)
    {
      hide NextCursor, NextOk, Room, ChainEnd, HostsFor;
      AimsNone(At(0, n), goal);
      RoomNone(lookup, hosts);
    }

    /** The tables and joins that are left, on the way to the goal. */
    ghost predicate SourcesAhead(n: nat, f: From, goal: Goal)
      reads `pos, `token, `lexum, `out, `hosts, `lookup, `act, `acts
    {
      Aims(At(0, n), SourcesEnd(src, Cur(), f), TablesPieces(f.tables) + JoinsPieces(f.joins, lookup, n, act),
           JoinsVars(f.joins), goal)
    }

    /** FROM and its first table name. */
    method ParseFromHead() returns (ok: bool)
      requires Ready()
      modifies `pos, `lineno, `token, `lexum, `heads, `opens, `errcode, `out
      ensures Read(ok) && (ok ==> Measure() < old(Measure()))
      ensures ok <==> old(token).FROM? && SkipTo(src, old(Cur()), ID).Some?
      ensures ok ==> Copied(ok, old(out), Skip(src, old(Cur())), [Word("FROM ")])
    {
      hide Ready, Due, Risks, Skipper, NextCursor, NextOk, Balance, Head;
      EmitWord("FROM ");
      if !token.FROM? {
        errcode := ExpFrom;
        return false;
      }
      ok := Expect(ID, ExpTable);
    }

    /** A table and the blank behind it. */
    method EmitTableBlank()
      requires Ready()
      modifies `out
      ensures Ready() && Balance(out) == old(Balance(out)) && out == old(out) + (TablePieces(lexum) + [Word(" ")])
    {
      hide Ready, Due, Risks, Skipper, Balance, TablePieces;
      EmitTable();
      EmitWord(" ");
    }

    /** One table of the list; `more` when a comma announces another. */
    method ParseTable(ghost ts: Option<seq<string>>) returns (ok: bool, more: bool)
      requires Ready() && token.ID?
      requires ts.Some? ==> TablesEnd(src, Cur(), ts.value).Some?
      modifies `pos, `lineno, `token, `lexum, `heads, `opens, `errcode, `out
      ensures Read(ok) && Measure() < old(Measure())
      ensures ok && more ==> token.ID?
      ensures ts.Some? ==> ok && ts.value != [] && more == (|ts.value| > 1)
      ensures ts.Some? && more ==>
                && TablesEnd(src, Cur(), ts.value[1..]) == TablesEnd(src, old(Cur()), ts.value)
                && out == old(out) + (TablePieces(ts.value[0]) + [Word(" "), Word(",")])
      ensures ts.Some? && !more ==> Copied(ok, old(out), TablesEnd(src, old(Cur()), ts.value), TablesPieces(ts.value))
    {
      hide Ready, Due, Risks, Skipper, NextCursor, NextOk, Balance, Head, TablePieces;
      if ts.Some? && |ts.value| > 1 {
        TablesStart(src, NextCursor(src, NextCursor(src, Cur())), ts.value[1..]);
      }
      more := false;
      EmitTableBlank();
      ok := Advance();
      if ok && token.COMMA? {
        EmitWord(",");
        more := true;
        ok := Expect(ID, ExpTable);
      }
    }

    /** A table of those that are left. */
    method ParseNextTable(n: nat, ghost f: Option<From>, ghost goal: Goal)
      returns (ok: bool, more: bool, ghost rest: Option<From>)
      requires Ready() && token.ID?
      requires f.Some? ==> SourcesEnd(src, Cur(), f.value).Some? && SourcesAhead(n, f.value, goal)
      modifies `pos, `lineno, `token, `lexum, `heads, `opens, `errcode, `out
      ensures Read(ok) && Measure() < old(Measure()) && (ok && more ==> token.ID?)
      ensures rest.Some? <==> f.Some?
      ensures f.Some? ==> ok && more == (rest.value.tables != []) && rest.value.joins == f.value.joins
      ensures f.Some? && more ==> SourcesEnd(src, Cur(), rest.value).Some? && SourcesAhead(n, rest.value, goal)
      ensures f.Some? && !more ==> JoinsAhead(n, rest.value.joins, goal)
    {
      hide Ready, Due, Risks, Skipper, NextCursor, NextOk, Balance, Head, Callee, Aims;
      hide TablesEnd, TablesPieces, TablePieces, JoinsAhead;
      rest := f;
      ghost var r := At(0, n);
      ok, more := ParseTable(if f.Some? then Some(f.value.tables) else None);
      if f.Some? {
        rest := Some(From(if more then f.value.tables[1..] else [], f.value.joins));
        if more {
          TablesOn(r, n, f.value, goal);
        } else {
          TablesOff(r, n, f.value, goal);
        }
      }
    }

    /** One round of the loop over tables: a table, and a join when no comma follows.
        `stop` when neither does. */
    method ParseTableRound(n: nat, ghost f: Option<From>, ghost goal: Goal)
      returns (ok: bool, next: nat, stop: bool, ghost rest: Option<From>)
      requires Valid() && n == Placed(hosts, act) && token.ID?
      requires f.Some? ==> SourcesEnd(src, Cur(), f.value).Some? && SourcesAhead(n, f.value, goal)
      modifies this
      ensures Parsed(ok) && (ok ==> next == Placed(hosts, act)) && Measure() < old(Measure())
      ensures rest.Some? <==> f.Some?
      ensures f.Some? && !ok ==> !old(JoinsPass(f.value.joins))
      ensures f.Some? && ok ==> acts == old(acts) && old(JoinsPass(f.value.joins)) == JoinsPass(rest.value.joins)
      ensures f.Some? && ok && rest.value.tables != [] ==>
                !stop && token.ID? && SourcesEnd(src, Cur(), rest.value).Some? && SourcesAhead(next, rest.value, goal)
      ensures f.Some? && ok && rest.value.tables == [] ==> JoinsAhead(next, rest.value.joins, goal) && !token.ID?
      decreases Measure(), 2
    {
      hide Ready, Due, Risks, Skipper, Indexed, NextCursor, NextOk, Balance, Placed, Outer, Head, Callee;
      hide JoinKind, SourcesEnd;
      hide SourcesAhead, JoinsAhead, JoinsRule, JoinsVars;
      next, stop := n, false;
      var more;
      ok, more, rest := ParseNextTable(n, f, goal);
      if !ok || more { return; }
      stop := !JoinKind(token);
      if !stop {
        ghost var js;
        ok, next, js := ParseNextJoin(n, if rest.Some? then Some(rest.value.joins) else None, goal);
        rest := if rest.Some? then Some(From([], js.value)) else None;
      }
      if rest.Some? && ok {
        JoinsNotId(next, rest.value.joins, goal);
      }
    }

    /** After a table and its comma the other tables are ahead. */
    lemma TablesOn(r: Reader, n: nat, f: From, goal: Goal)
      requires |f.tables| > 1 && r.n == n && r.src == src && r.lookup == lookup && r.act == act
      requires Aims(r, SourcesEnd(src, r.cursor, f), TablesPieces(f.tables) + JoinsPieces(f.joins, lookup, n, act),
                    JoinsVars(f.joins), goal)
      requires TablesEnd(src, Cur(), f.tables[1..]) == TablesEnd(src, r.cursor, f.tables)
      requires At(0, n) == r.(cursor := Cur(), out := r.out + (TablePieces(f.tables[0]) + [Word(" "), Word(",")]))
      ensures SourcesEnd(src, Cur(), From(f.tables[1..], f.joins)).Some?
      ensures SourcesAhead(n, From(f.tables[1..], f.joins), goal)
    {
      hide Room, HostsFor, TablesEnd, JoinsEnd, JoinsPieces, TablePieces, JoinsVars;
      var first := TablePieces(f.tables[0]) + [Word(" "), Word(",")];
      var rest := TablesPieces(f.tables[1..]);
      assert TablesPieces(f.tables) == first + rest;
      Assoc(first, rest, JoinsPieces(f.joins, lookup, n, act));
      Assoc(r.out, first, rest + JoinsPieces(f.joins, lookup, n, act));
    }

    /** After the last table the joins are ahead. */
    lemma TablesOff(r: Reader, n: nat, f: From, goal: Goal)
      requires r.n == n && r.src == src && r.lookup == lookup && r.act == act
      requires Aims(r, SourcesEnd(src, r.cursor, f), TablesPieces(f.tables) + JoinsPieces(f.joins, lookup, n, act),
                    JoinsVars(f.joins), goal)
      requires Some(Cur()) == TablesEnd(src, r.cursor, f.tables)
      requires At(0, n) == r.(cursor := Cur(), out := r.out + TablesPieces(f.tables))
      ensures JoinsAhead(n, f.joins, goal)
    {
      hide Room, HostsFor, TablesEnd, JoinsEnd, JoinsPieces, TablesPieces, JoinsVars;
      Assoc(r.out, TablesPieces(f.tables), JoinsPieces(f.joins, lookup, n, act));
    }

    /** Joins begin with their own words, and no table follows them. */
    lemma JoinsNotId(n: nat, js: seq<Joining>, goal: Goal)
      requires JoinsAhead(n, js, goal)
      ensures !token.ID?
    {
      hide NextCursor, NextOk, Room, ChainEnd, HostsFor, JoinsPieces, JoinsVars;
    }

    /** Tables separated by commas; after a join another table may follow. */
    method ParseTables(n: nat, ghost f: Option<From>, ghost goal: Goal)
      returns (ok: bool, next: nat, ghost js: Option<seq<Joining>>)
      requires Valid() && n == Placed(hosts, act)
      requires f.Some? ==>
                 && token.ID? && f.value.tables != []
                 && SourcesEnd(src, Cur(), f.value).Some? && SourcesAhead(n, f.value, goal)
      modifies this
      ensures Parsed(ok) && (ok ==> next == Placed(hosts, act))
      ensures f.Some? <==> js.Some?
      ensures js.Some? && !ok ==> !old(JoinsPass(f.value.joins))
      ensures js.Some? && ok ==>
                && JoinsAhead(next, js.value, goal) && acts == old(acts)
                && old(JoinsPass(f.value.joins)) == JoinsPass(js.value)
      decreases Measure(), 3
    {
      hide Ready, Due, Risks, Skipper, Indexed, NextCursor, NextOk, Balance, Placed, Outer, Head, Callee;
      hide SourcesEnd, SourcesAhead;
      hide JoinsAhead, JoinsPass;
      ok, next := true, n;
      ghost var rest := f;
      while token.ID?
        invariant Parsed(ok) && ok && next == Placed(hosts, act)
        invariant rest.Some? <==> f.Some?
        invariant rest.Some? ==> acts == old(acts) && old(JoinsPass(f.value.joins)) == JoinsPass(rest.value.joins)
        invariant rest.Some? && rest.value.tables != [] ==>
                    token.ID? && SourcesEnd(src, Cur(), rest.value).Some? && SourcesAhead(next, rest.value, goal)
        invariant rest.Some? && rest.value.tables == [] ==>
                    JoinsAhead(next, rest.value.joins, goal) && !token.ID?
        decreases Measure()
      {
        var stop;
        ok, next, stop, rest := ParseTableRound(next, rest, goal);
        if !ok || stop {
          js := if rest.Some? then Some(rest.value.joins) else None;
          return;
        }
      }
      js := if rest.Some? then Some(rest.value.joins) else None;
    }

    method ParseFrom(n: nat, ghost f: Option<From>) returns (ok: bool, next: nat)
      requires Valid() && n == Placed(hosts, act)
      requires f.Some? ==> FromEnd(src, Cur(), f.value).Some?
      modifies this
      ensures Parsed(ok) && (ok ==> next == Placed(hosts, act))
      ensures f.Some? ==>
                if old(JoinsPass(f.value.joins)) then Wrote(
                  ok, old(Sofar()), FromEnd(src, old(Cur()), f.value), FromPieces(f.value, lookup, n, act),
                  JoinsVars(f.value.joins), n, next)
                else !ok
      decreases Measure(), 5
    {
      hide Ready, Due, Risks, Skipper, Indexed, NextCursor, NextOk, Balance, Placed, Outer, Room, Head, Callee;
      hide SourcesEnd, TablesPieces, JoinsPieces, JoinsVars, HostsFor, SourcesAhead, JoinsAhead, JoinsRule;
      next := n;
      ghost var goal := GoalOf(At(0, n), Cur(), [], []);
      if f.Some? {
        goal := GoalOf(At(0, n), FromEnd(src, Cur(), f.value).value, FromPieces(f.value, lookup, n, act),
          JoinsVars(f.value.joins));
        FromStart(src, Cur(), f.value);
      }
      ok := ParseFromHead();
      if !ok { return; }
      if f.Some? {
        FromAhead(old(out), n, f.value, goal);
      }
      ok, next := ParseSources(n, f, goal);
    }

    /** The tables and the joins. */
    method ParseSources(n: nat, ghost f: Option<From>, ghost goal: Goal) returns (ok: bool, next: nat)
      requires Valid() && n == Placed(hosts, act)
      requires f.Some? ==>
                 && token.ID? && f.value.tables != []
                 && SourcesEnd(src, Cur(), f.value).Some? && SourcesAhead(n, f.value, goal)
      modifies this
      ensures Parsed(ok) && (ok ==> next == Placed(hosts, act))
      ensures f.Some? ==>
                if old(JoinsPass(f.value.joins)) then ok && Reached(goal, next) && acts == old(acts) else !ok
      decreases Measure(), 4
    {
      hide Ready, Due, Risks, Skipper, Indexed, NextCursor, NextOk, Balance, Placed, Outer, Head, Callee;
      hide SourcesEnd, SourcesAhead, JoinsAhead, Reached, JoinsPass;
      ghost var js;
      ok, next, js := ParseTables(n, f, goal);
      if !ok { return; }
      ok, next := ParseJoins(next, js, goal);
    }

    /** After FROM all of its tables and joins are ahead. */
    lemma FromAhead(before: seq<Piece>, n: nat, f: From, goal: Goal)
      requires SourcesEnd(src, Cur(), f) == Some(goal.end)
      requires out == before + [Word("FROM ")]
      requires goal == Goal(goal.end, before + FromPieces(f, lookup, n, act), n + |JoinsVars(f.joins)|,
                            hosts + HostsFor(JoinsVars(f.joins), lookup, n, act))
      ensures SourcesAhead(n, f, goal)
    {
      hide Room, HostsFor, SourcesEnd, JoinsPieces, TablesPieces, JoinsVars;
      Assoc(before, [Word("FROM ")], TablesPieces(f.tables) + JoinsPieces(f.joins, lookup, n, act));
    }

    /** FROM and WHERE. */
    method ParseBody(n: nat, ignoreTrailingRpar: bool, ghost b: Option<Body>) returns (ok: bool, next: nat)
      requires Valid() && n == Placed(hosts, act)
      requires b.Some? ==> BodyEnd(src, Cur(), b.value).Some?
      modifies this
      ensures Parsed(ok) && (ok ==> next == Placed(hosts, act) && opens - leftover >= Slack() >= old(Slack()))
      ensures b.Some? ==>
                if BodyRule(b.value) && old(Fit(BodyVars(b.value))) then Wrote(
                  ok, old(Sofar()), BodyEnd(src, old(Cur()), b.value), BodyPieces(b.value, lookup, n, act),
                  BodyVars(b.value), n, next)
                else !ok
      decreases Measure(), 6
    {
      hide Ready, Due, Risks, Skipper, Indexed, NextCursor, NextOk, Balance, Placed, Outer, Room, Head, Callee;
      hide FromEnd, FromPieces, ClauseEnd, ClausePieces, ClauseVars, JoinsVars, HostsFor, JoinsRule, ClauseRule;
      ghost var r := At(0, n);
      if b.Some? {
        RoomSplit(JoinsVars(b.value.from.joins), ClauseVars(b.value.where), lookup, hosts, n, act);
      }
      ok, next := ParseFrom(n, if b.Some? then Some(b.value.from) else None);
      if !ok { return; }
      ok, next := ParseWhere(next, ignoreTrailingRpar, if b.Some? then Some(b.value.where) else None);
      if b.Some? {
        BodyAssoc(r.out, r.hosts, b.value, lookup, n, act);
      }
    }

    // ------------------------------------------------------------ SELECT

    /** SELECT, and DISTINCT if it follows; any other token is skipped as well. */
    method ParseSelectHead(ghost distinct: Option<bool>) returns (ok: bool)
      requires Ready()
      requires distinct.Some? ==> SelectHeadEnd(src, Cur(), distinct.value).Some?
      modifies `pos, `lineno, `token, `lexum, `heads, `opens, `errcode, `out
      ensures Skimmed(ok) && (!old(token).EOS? ==> Measure() < old(Measure()))
      ensures ok && old(token).EOS? ==> token.EOS?
      ensures heads >= old(heads) + if Head(old(token)) then 1 else 0
      ensures distinct.Some? ==> Copied(
                ok, old(out), SelectHeadEnd(src, old(Cur()), distinct.value), SelectHeadPieces(distinct.value))
      ensures Even(ok, -Paren(old(token)))
    {
      hide Ready, Due, Risks, Skipper, NextCursor, NextOk, Balance, Head, Callee;
      EmitWord("SELECT ");
      ok := Advance();
      if ok && token.DISTINCT? {
        EmitWord("DISTINCT ");
        ok := Advance();
      }
    }

    /** AS and the name it gives. */
    method ParseAlias(ghost alias: Option<string>) returns (ok: bool)
      requires Ready() && token.AS?
      requires alias.Some? ==> AliasEnd(src, Cur(), alias).Some?
      modifies `pos, `lineno, `token, `lexum, `heads, `opens, `errcode, `ufields
      ensures Read(ok) && Measure() < old(Measure())
      ensures ok ==> |ufields| == |old(ufields)| + 1
      ensures alias.Some? ==>
                && Copied(ok, old(out), AliasEnd(src, old(Cur()), alias), [])
                && ufields == old(ufields) + [alias.value]
    {
      hide Ready, Due, Risks, Skipper, NextCursor, NextOk, Balance, Head;
      ok := Expect(ID, ExpFields);
      if !ok { return; }
      ufields := ufields + [lexum];
      ok := Advance();
    }

    /** The name of a select item: what AS says, or FIELDn for a nameless one. */
    method ParseItemName(named: bool, ghost alias: Option<Option<string>>) returns (ok: bool)
      requires Ready()
      requires alias.Some? ==> AliasEnd(src, Cur(), alias.value).Some?
      modifies `pos, `lineno, `token, `lexum, `heads, `opens, `errcode, `ufields
      ensures Read(ok)
      ensures alias.Some? ==> Copied(ok, old(out), AliasEnd(src, old(Cur()), alias.value), [])
    {
      hide Ready, Due, Risks, Skipper, NextCursor, NextOk, Balance, Head, Callee;
      ok := true;
      var added := named;
      if token.AS? {
        added := true;
        ok := ParseAlias(if alias.Some? then alias.value else None);
        if !ok { return; }
      }
      if !added {
        ufields := ufields + ["FIELD" + Decimal.Digits(|ufields|)];
      }
    }

    /** The comma after a select item and the blank after both. */
    method ParseItemComma() returns (ok: bool)
      requires Ready()
      modifies `pos, `lineno, `token, `lexum, `heads, `opens, `errcode, `out
      ensures Read(ok)
      ensures ok <==> old(token).COMMA? ==> NextOk(src, old(Cur()))
      ensures ok && old(token).COMMA? ==> Copied(ok, old(out), Skip(src, old(Cur())), [Word(", "), Word(" ")])
      ensures ok && !old(token).COMMA? ==> Copied(ok, old(out), Some(old(Cur())), [Word(" ")])
    {
      hide Ready, Due, Risks, Skipper, NextCursor, NextOk, Balance, Head;
      ok := true;
      if token.COMMA? {
        ok := Advance();
        if !ok { return; }
        EmitWord(", ");
      }
      EmitWord(" ");
    }

    /** The value of a select item; `named` when it is a field. */
    method ParseItemValue(n: nat, ghost name: Option<Name>) returns (ok: bool, next: nat, named: bool)
      requires Valid() && n == Placed(hosts, act) && StartsItem(token)
      requires name.Some? ==> NameEnd(src, Cur(), name.value).Some?
      modifies this
      ensures Parsed(ok) && (ok ==> next == Placed(hosts, act) && Measure() < old(Measure()))
      ensures name.Some? ==>
                && Copied(ok, old(out), NameEnd(src, old(Cur()), name.value), NamePieces(name.value))
                && hosts == old(hosts) && next == n && acts == old(acts)
      decreases Measure(), 1
    {
      hide Ready, Due, Risks, Skipper, Indexed, NextCursor, NextOk, Balance, Placed, Outer, Head, Callee;
      hide FieldPieces, FunctionEnd;
      hide FunctionPieces;
      next, named := n, token.ID?;
      if token.FUNC? {
        ok := ParseFunction();
      } else if token.CASE? {
        ok, next := ParseCase(n);
      } else if token.ID? {
        ok := ParseField(true);
      } else {
        ok := ParseLit(false);
      }
    }

    /** What follows the value of a select item. */
    method ParseItemEnd(named: bool, ghost alias: Option<Option<string>>, ghost more: bool) returns (ok: bool)
      requires Ready()
      requires alias.Some? ==>
                 var e := AliasEnd(src, Cur(), alias.value);
                 e.Some? && if more then Take(src, e.value, COMMA).Some? else e.value.token.FROM?
      modifies `pos, `lineno, `token, `lexum, `heads, `opens, `errcode, `out, `ufields
      ensures Read(ok)
      ensures alias.Some? && more ==> Copied(
                ok, old(out), Take(src, AliasEnd(src, old(Cur()), alias.value).value, COMMA), [Word(", "), Word(" ")])
      ensures alias.Some? && !more ==> Copied(ok, old(out), AliasEnd(src, old(Cur()), alias.value), [Word(" ")])
    {
      hide Ready, Due, Risks, Skipper, NextCursor, NextOk, Balance, Head, Callee, AliasEnd;
      ok := ParseItemName(named, alias);
      if !ok { return; }
      ok := ParseItemComma();
    }

    /** One select item, its name and the comma after it. */
    method ParseItem(n: nat, ghost items: Option<seq<Item>>) returns (ok: bool, next: nat)
      requires Valid() && n == Placed(hosts, act) && StartsItem(token)
      requires items.Some? ==> ItemsEnd(src, Cur(), items.value).Some?
      modifies this
      ensures Parsed(ok) && (ok ==> next == Placed(hosts, act) && Measure() < old(Measure()))
      ensures items.Some? ==> ok && hosts == old(hosts) && next == n && acts == old(acts) && items.value != []
      ensures items.Some? && |items.value| == 1 ==>
                && token.FROM?
                && Copied(ok, old(out), ItemsEnd(src, old(Cur()), items.value), ItemsPieces(items.value))
      ensures items.Some? && |items.value| > 1 ==>
                && ItemsEnd(src, Cur(), items.value[1..]) == ItemsEnd(src, old(Cur()), items.value)
                && out == old(out) + (NamePieces(items.value[0].name) + [Word(", "), Word(" ")])
      decreases Measure(), 2
    {
      hide Ready, Due, Risks, Skipper, Indexed, NextCursor, NextOk, Balance, Placed, Outer, Head, Callee, StartsItem;
      hide NameEnd, NamePieces, AliasEnd;
      var named;
      ok, next, named := ParseItemValue(n, if items.Some? then Some(items.value[0].name) else None);
      if !ok { return; }
      ghost var alias := if items.Some? then Some(items.value[0].alias) else None;
      ok := ParseItemEnd(named, alias, items.Some? && |items.value| > 1);
    }

    /** The items that are left bring the text to the goal. */
    ghost predicate ItemsAhead(items: seq<Item>, end: Option<Cursor>, goal: seq<Piece>)
      reads `pos, `token, `lexum, `out
    {
      && end.Some? && token == (if items == [] then FROM else ID)
      && (if items == [] then Some(Cur()) else ItemsEnd(src, Cur(), items)) == end
      && out + ItemsPieces(items) == goal
    }

    /** One of the items that are left. */
    method ParseNextItem(n: nat, ghost items: Option<seq<Item>>, ghost end: Option<Cursor>, ghost goal: seq<Piece>)
      returns (ok: bool, next: nat, ghost rest: Option<seq<Item>>)
      requires Valid() && n == Placed(hosts, act) && StartsItem(token)
      requires items.Some? ==> ItemsAhead(items.value, end, goal)
      modifies this
      ensures Parsed(ok) && (ok ==> next == Placed(hosts, act) && Measure() < old(Measure()))
      ensures rest.Some? <==> items.Some?
      ensures items.Some? ==>
                ok && ItemsAhead(rest.value, end, goal) && hosts == old(hosts) && next == n && acts == old(acts)
      decreases Measure(), 3
    {
      hide Ready, Due, Risks, Skipper, Indexed, NextCursor, NextOk, Balance, Placed, Outer, Head, Callee;
      hide ItemEnd, NamePieces;
      rest := items;
      ok, next := ParseItem(n, items);
      if items.Some? {
        rest := Some(items.value[1..]);
        if |items.value| > 1 {
          Assoc(old(out), NamePieces(items.value[0].name) + [Word(", "), Word(" ")], ItemsPieces(items.value[1..]));
          ItemsStart(src, Cur(), items.value[1..]);
        }
      }
    }

    method ParseItems(n: nat, ghost items: Option<seq<Item>>) returns (ok: bool, next: nat)
      requires Valid() && n == Placed(hosts, act)
      requires items.Some? ==> ItemsEnd(src, Cur(), items.value).Some?
      modifies this
      ensures Parsed(ok) && (ok ==> next == Placed(hosts, act))
      ensures items.Some? ==>
                && Copied(ok, old(out), ItemsEnd(src, old(Cur()), items.value), ItemsPieces(items.value))
                && hosts == old(hosts) && next == n && acts == old(acts)
      decreases Measure(), 4
    {
      hide Ready, Due, Risks, Skipper, Indexed, NextCursor, NextOk, Balance, Placed, Outer, Head, Callee;
      hide ItemsEnd, ItemsPieces;
      ghost var rest := items;
      ghost var goal := if items.Some? then out + ItemsPieces(items.value) else [];
      ghost var end := if items.Some? then ItemsEnd(src, Cur(), items.value) else None;
      if items.Some? {
        ItemsStart(src, Cur(), items.value);
        assert ItemsAhead(items.value, end, goal);
      }
      hide ItemsAhead;
      ok, next := true, n;
      while StartsItem(token)
        invariant Parsed(ok) && ok && next == Placed(hosts, act)
        invariant rest.Some? <==> items.Some?
        invariant rest.Some? ==> ItemsAhead(rest.value, end, goal)
        invariant rest.Some? ==> hosts == old(hosts) && next == n && acts == old(acts)
        decreases Measure()
      {
        ok, next, rest := ParseNextItem(next, rest, end, goal);
        if !ok { return; }
      }
      if rest.Some? {
        ItemsDone(rest.value, end, goal);
      }
    }

    lemma ItemsDone(items: seq<Item>, end: Option<Cursor>, goal: seq<Piece>)
      requires ItemsAhead(items, end, goal) && !StartsItem(token)
      ensures end == Some(Cur()) && out == goal
    {
      hide ItemsEnd;
    }

    /** '*' or the field list. */
    method ParseFieldList(n: nat, ghost items: Option<seq<Item>>) returns (ok: bool, next: nat)
      requires Valid() && n == Placed(hosts, act)
      requires items.Some? ==> FieldsEnd(src, Cur(), items.value).Some?
      modifies this
      ensures Parsed(ok) && (ok ==> next == Placed(hosts, act))
      ensures ok ==> old(token).SPLAT? || old(token).ID? || old(token).FUNC?
      ensures items.Some? ==>
                && Copied(ok, old(out), FieldsEnd(src, old(Cur()), items.value), FieldsPieces(items.value))
                && hosts == old(hosts) && next == n && acts == old(acts)
      decreases Measure(), 5
    {
      hide Ready, Due, Risks, Skipper, Indexed, NextCursor, NextOk, Balance, Placed, Outer, Head, ItemsEnd, ItemsPieces;
      next := n;
      if items.Some? {
        ItemsStart(src, Cur(), items.value);
      }
      if token.SPLAT? {
        ok := Advance();
        if !ok { return; }
        EmitWord("* ");
      } else if token.ID? || token.FUNC? {
        ok, next := ParseItems(n, items);
      } else {
        errcode := ExpFields;
        ok := false;
      }
    }

    /** GROUP BY and HAVING. */
    method ParseGrouping(n: nat, ghost w: Option<Option<Chain<Operand>>>) returns (ok: bool, next: nat)
      requires Valid() && n == Placed(hosts, act)
      requires w.Some? ==>
                 && !token.GROUP? && ClauseEnd(src, Cur(), HAVING, w.value).Some?
                
      modifies this
      ensures Parsed(ok) && (ok ==> next == Placed(hosts, act))
      ensures w.Some? ==>
                if ClauseRule(w.value) && old(Fit(ClauseVars(w.value))) then Wrote(
                  ok, old(Sofar()), ClauseEnd(src, old(Cur()), HAVING, w.value),
                  ClausePieces(" HAVING ", w.value, lookup, n, act), ClauseVars(w.value), n, next)
                else !ok
      decreases Measure(), 2
    {
      hide Ready, Due, Risks, Skipper, Indexed, NextCursor, NextOk, Balance, Placed, Outer, Room, Head, Callee;
      hide ClauseEnd, ClausePieces, ClauseVars, HostsFor, ClauseRule;
      next := n;
      ok := ParseGroupBy();
      if !ok { return; }
      ok, next := ParseHaving(n, w);
    }

    /** GROUP BY to ORDER BY. */
    method ParseTrail(n: nat, ghost q: Option<Query>) returns (ok: bool, next: nat)
      requires Valid() && n == Placed(hosts, act)
      requires q.Some? ==> TrailEnd(src, Cur(), q.value).Some?
      modifies this
      ensures Parsed(ok) && (ok ==> next == Placed(hosts, act))
      ensures q.Some? ==>
                if ClauseRule(q.value.having) && old(Fit(ClauseVars(q.value.having))) then Wrote(
                  ok, old(Sofar()), TrailEnd(src, old(Cur()), q.value), TrailPieces(q.value, lookup, n, act),
                  ClauseVars(q.value.having), n, next)
                else !ok
      decreases Measure(), 3
    {
      hide Ready, Due, Risks, Skipper, Indexed, NextCursor, NextOk, Balance, Placed, Outer, Room, Head, Callee;
      hide ClauseEnd, ClausePieces, ClauseVars, HostsFor, OrderEnd, OrderPieces, ClauseRule;
      if q.Some? {
        Assoc(out, ClausePieces(" HAVING ", q.value.having, lookup, n, act), OrderPieces(q.value.order));
      }
      ok, next := ParseGrouping(n, if q.Some? then Some(q.value.having) else None);
      if !ok { return; }
      ok := ParseOrderBy(if q.Some? then Some(q.value.order) else None);
    }

    /** FROM to ORDER BY. */
    method ParseClauses(n: nat, ghost q: Option<Query>) returns (ok: bool, next: nat)
      requires Valid() && n == Placed(hosts, act)
      requires q.Some? ==> n == 0 && ClausesEnd(src, Cur(), q.value).Some?
      modifies this
      ensures Parsed(ok) && (ok ==> next == Placed(hosts, act))
      ensures q.Some? ==>
                if SelectRule(q.value) && old(Fit(SelectVars(q.value))) then Wrote(
                  ok, old(Sofar()), ClausesEnd(src, old(Cur()), q.value), ClausesPieces(q.value, lookup, act),
                  SelectVars(q.value), n, next)
                else !ok
      decreases Measure(), 7
    {
      hide Ready, Due, Risks, Skipper, Indexed, NextCursor, NextOk, Balance, Placed, Outer, Room, Head, Callee;
      hide BodyEnd, BodyPieces, BodyVars, TrailEnd, TrailPieces, ClauseVars, HostsFor, BodyRule, ClauseRule;
      ghost var r := At(0, n);
      if q.Some? {
        RoomSplit(BodyVars(q.value.body), ClauseVars(q.value.having), lookup, hosts, n, act);
      }
      ok, next := ParseBody(n, true, if q.Some? then Some(q.value.body) else None);
      if !ok { return; }
      ok, next := ParseTrail(next, q);
      if q.Some? {
        ClausesAssoc(r.out, r.hosts, q.value, lookup, act);
      }
    }

    /** The fields and the clauses. */
    method ParseSelectFields(ghost q: Option<Query>) returns (ok: bool, next: nat)
      requires Valid() && Placed(hosts, act) == 0
      requires q.Some? ==> SelectBodyEnd(src, Cur(), q.value).Some?
      modifies this
      ensures Parsed(ok) && (ok ==> next == Placed(hosts, act))
      ensures ok ==> !old(token).LPAR?
      ensures q.Some? ==>
                if SelectRule(q.value) && old(Fit(SelectVars(q.value))) then Wrote(
                  ok, old(Sofar()), SelectBodyEnd(src, old(Cur()), q.value), SelectBodyPieces(q.value, lookup, act),
                  SelectVars(q.value), 0, next)
                else !ok
      decreases Measure(), 8
    {
      hide Ready, Due, Risks, Skipper, Indexed, NextCursor, NextOk, Balance, Placed, Outer, Room, Head, Callee;
      hide FieldsEnd, FieldsPieces, ClausesEnd, ClausesPieces, SelectVars, HostsFor, SelectRule;
      if q.Some? {
        Assoc(out, FieldsPieces(q.value.items), ClausesPieces(q.value, lookup, act));
      }
      ok, next := ParseFieldList(0, if q.Some? then Some(q.value.items) else None);
      if !ok { return; }
      ok, next := ParseClauses(next, q);
    }

    /** UNION and the SELECT after it. */
    method ParseUnion(ignoreTrailingRpar: bool, ghost u: Option<Option<Query>>) returns (ok: bool)
      requires Valid()
      requires u.Some? ==>
                 && !ignoreTrailingRpar && act == acts && UnionEnd(src, Cur(), u.value).Some?
      modifies this
      ensures Parsed(ok)
      ensures u.Some? ==>
                if UnionRule(u.value) && old(Fit(UnionVars(u.value))) then
                  && Copied(ok, old(out), UnionEnd(src, old(Cur()), u.value), UnionPieces(u.value, lookup, act))
                  && hosts == old(hosts) + UnionHosts(u.value, lookup, act)
                else !ok
      decreases Measure(), 7
    {
      hide Ready, Due, Risks, Skipper, Indexed, NextCursor, NextOk, Balance, Placed, Outer, Room, Head, Callee;
      hide QueryEnd, QueryPieces, QueryHosts, QueryVars, QueryRule;
      ok := true;
      RoomNone(lookup, hosts);
      EmitWord(" FOR BROWSE ACCESS ");
      if !ignoreTrailingRpar && token.UNION? {
        if u.Some? {
          UnionAssoc(old(out), u.value.value, lookup, act);
        }
        ok := ParseUnionTail(if u.Some? then u.value else None);
      }
    }

    /** From UNION on. */
    method ParseUnionTail(ghost q: Option<Query>) returns (ok: bool)
      requires Valid() && token.UNION?
      requires q.Some? ==>
                 && act == acts && NextOk(src, Cur()) && QueryEnd(src, NextCursor(src, Cur()), q.value).Some?
      modifies this
      ensures Parsed(ok)
      ensures q.Some? ==>
                if QueryRule(q.value) && old(Fit(QueryVars(q.value))) then
                  && ok && Some(Cur()) == QueryEnd(src, NextCursor(src, old(Cur())), q.value)
                  && out == (old(out) + [Word(" UNION ")]) + QueryPieces(q.value, lookup, act + 1)
                  && hosts == old(hosts) + QueryHosts(q.value, lookup, act + 1)
                else !ok
      decreases Measure(), 6
    {
      hide Ready, Due, Risks, Aggregate, Upper, Indexed, NextCursor, NextOk, Balance, Placed, Outer, Room;
      hide QueryEnd, QueryPieces, QueryHosts, QueryVars, QueryRule;
      ok := ParseKeyword(" UNION ");
      if !ok { return; }
      ok := ParseSelect(false, q);
    }

    /** One SELECT with its own count of placeholders, and those of its UNION. */
    method ParseSelectBody(ignoreTrailingRpar: bool, ghost q: Option<Query>) returns (ok: bool)
      requires Valid() && Placed(hosts, act) == 0
      requires q.Some? ==>
                 && !ignoreTrailingRpar && act == acts && QueryEnd(src, Cur(), q.value).Some?
      modifies this
      ensures Grown(ok)
      ensures acts - heads <= old(acts - heads) - if Head(old(token)) then 1 else 0
      ensures q.Some? ==>
                if QueryRule(q.value) && old(Fit(QueryVars(q.value))) then
                  && Copied(ok, old(out), QueryEnd(src, old(Cur()), q.value), QueryPieces(q.value, lookup, act))
                  && hosts == old(hosts) + QueryHosts(q.value, lookup, act)
                else !ok
      ensures Even(ok, -Paren(old(token)))
      decreases Measure(), 9
    {
      hide Ready, Due, Risks, Skipper, Indexed, NextCursor, NextOk, Balance, Placed, Outer, Room, Head;
      hide Callee, SelectRule, UnionRule;
      hide SelectHeadEnd, SelectHeadPieces, SelectBodyEnd, SelectBodyPieces, UnionEnd, UnionPieces, UnionHosts;
      hide SelectVars, UnionVars, HostsFor;
      ghost var r := At(0, 0);
      if q.Some? {
        RoomSplit(SelectVars(q.value), UnionVars(q.value.union), lookup, hosts, 0, act);
      }
      ok := ParseSelectHead(if q.Some? then Some(q.value.distinct) else None);
      if !ok { return; }
      var n;
      ok, n := ParseSelectFields(q);
      if !ok { return; }
      ok := ParseUnion(ignoreTrailingRpar, if q.Some? then Some(q.value.union) else None);
      if q.Some? {
        QueryAssoc(r.out, r.hosts, q.value, lookup, act);
      }
    }

    method ParseSelect(ignoreTrailingRpar: bool, ghost q: Option<Query>) returns (ok: bool)
      requires Valid()
      requires q.Some? ==>
                 && !ignoreTrailingRpar && QueryEnd(src, Cur(), q.value).Some?
      modifies this
      ensures Grown(ok) && acts > old(acts)
      ensures acts - heads <= old(acts - heads) + if Head(old(token)) then 0 else 1
      ensures Placed(hosts, act) == old(Placed(hosts, act))
      ensures q.Some? ==>
                if QueryRule(q.value) && old(Fit(QueryVars(q.value))) then
                  && Copied(ok, old(out), QueryEnd(src, old(Cur()), q.value),
                            QueryPieces(q.value, lookup, old(acts) + 1))
                  && hosts == old(hosts) + QueryHosts(q.value, lookup, old(acts) + 1)
                else !ok
      ensures Even(ok, -Paren(old(token)))
      decreases Measure(), 10
    {
      hide Ready, Due, Risks, Skipper, Indexed, NextCursor, NextOk, Balance, Placed, Outer, Head, Callee;
      hide QueryEnd, QueryPieces, QueryHosts, QueryVars, QueryRule, Room;
      stmttype := SELECT;
      var outer := OpenActivation();
      ok := ParseSelectBody(ignoreTrailingRpar, q);
      OuterKept(old(hosts), hosts, act, outer);
      CloseActivation(outer);
    }

    /** A new activation with its own prmidxpos. */
    method OpenActivation() returns (outer: nat)
      requires Valid()
      modifies `act, `acts
      ensures Valid() && outer == old(act) && act == acts == old(acts) + 1 && Placed(hosts, act) == 0
    {
      hide Ready, Due, Risks, Skipper, Placed, Outer, Numbered, AllStored, Named;
      outer := act;
      acts := acts + 1;
      act := acts;
      PlacedNone(hosts, act);
    }

    /** Back to the activation around it. */
    method CloseActivation(outer: nat)
      requires Valid() && outer <= acts
      modifies `act
      ensures Valid() && act == outer
    {
      hide Ready, Due, Risks, Skipper, Numbered, AllStored, Named;
      act := outer;
    }

    // ------------------------------------------------------------ INSERT and UPDATE

    /** "INSERT INTO table (": the tokenizer sees the table as a function name. */
    method ParseInsertHead(ghost table: Option<string>) returns (ok: bool)
      requires Ready()
      requires table.Some? ==> InsertHeadEnd(src, Cur(), table.value).Some?
      modifies `pos, `lineno, `token, `lexum, `heads, `opens, `errcode, `out
      ensures Ready() && Measure() <= old(Measure()) && heads >= old(heads) && opens >= old(opens)
      ensures ok ==> Balance(out) == old(Balance(out)) + 1
      ensures table.Some? ==> Copied(
                ok, old(out), InsertHeadEnd(src, old(Cur()), table.value), InsertHeadPieces(table.value))
      ensures Even(ok, 0)
    {
      hide Ready, Due, Risks, Skipper, NextCursor, NextOk, Balance, Head, Callee, DefinePieces;
      if !token.INSERT? {
        errcode := SyntaxError;
        return false;
      }
      ok := ParseInto();
      if !ok { return; }
      ok := ParseInsertTable();
    }

    /** INTO, up to the table. */
    method ParseInto() returns (ok: bool)
      requires Ready()
      modifies `pos, `lineno, `token, `lexum, `heads, `opens, `errcode
      ensures Ready() && Measure() <= old(Measure()) && heads >= old(heads) && opens >= old(opens)
      ensures var i := NextCursor(src, old(Cur()));
              && (ok <==> NextOk(src, old(Cur())) && i.token.INTO? && NextOk(src, i) && NextCursor(src, i).token.FUNC?)
              && (ok ==> Cur() == NextCursor(src, i))
      ensures Even(ok, -Paren(old(token)))
    {
      hide Ready, Due, Risks, Skipper, Balance, NextCursor, NextOk, Head, Callee;
      ok := Expect(INTO, ExpInto);
      if !ok { return; }
      ok := Expect(FUNC, ExpTable);
    }

    method EmitInto()
      requires Ready()
      modifies `out
      ensures Ready() && Balance(out) == old(Balance(out))
      ensures out == old(out) + ([Word(" INSERT INTO ")] + DefinePieces(lexum))
    {
      hide Ready, Due, Risks, Skipper, Balance, DefinePieces;
      EmitWord(" INSERT INTO ");
      EmitDefine();
    }

    /** The table of an INSERT and its '('. */
    method ParseInsertTable() returns (ok: bool)
      requires Ready()
      modifies `pos, `lineno, `token, `lexum, `heads, `opens, `errcode, `out
      ensures Ready() && Measure() <= old(Measure()) && heads >= old(heads) && opens >= old(opens)
      ensures ok ==> Balance(out) == old(Balance(out)) + 1
      ensures var l := NextCursor(src, old(Cur()));
              && (ok <==> NextOk(src, old(Cur())) && l.token.LPAR? && NextOk(src, l))
              && (ok ==> Cur() == NextCursor(src, l) && out == old(out) + InsertHeadPieces(old(lexum)))
      ensures Even(ok, -Paren(old(token)))
    {
      hide Ready, Due, Risks, Skipper, NextCursor, NextOk, Balance, Head, Callee, DefinePieces;
      EmitInto();
      ok := Expect(LPAR, ExpLpar);
      if !ok { return; }
      Emit(Open);
      ok := Advance();
    }

    /** A column and the comma after it. */
    method ParseColumn(ghost cs: Option<seq<string>>) returns (ok: bool)
      requires Ready() && token.ID?
      requires cs.Some? ==> ColumnsEnd(src, Cur(), cs.value).Some?
      modifies `pos, `lineno, `token, `lexum, `heads, `opens, `errcode, `out
      ensures Read(ok) && (ok ==> Measure() < old(Measure()))
      ensures cs.Some? ==> ok && cs.value != []
      ensures cs.Some? && |cs.value| == 1 ==>
                !token.ID? && Copied(ok, old(out), ColumnsEnd(src, old(Cur()), cs.value), [Word(cs.value[0])])
      ensures cs.Some? && |cs.value| > 1 ==>
                && token.ID? && ColumnsEnd(src, Cur(), cs.value[1..]) == ColumnsEnd(src, old(Cur()), cs.value)
                && out == old(out) + [Word(cs.value[0]), Word(",")]
    {
      hide Ready, Due, Risks, Skipper, NextCursor, NextOk, Balance, Head;
      if cs.Some? && |cs.value| > 1 {
        ColumnsStart(src, NextCursor(src, NextCursor(src, Cur())), cs.value[1..]);
      }
      EmitWord(lexum);
      ok := Advance();
      if !ok { return; }
      if token.COMMA? {
        ok := Expect(ID, ExpFields);
        if !ok { return; }
        EmitWord(",");
      }
    }

    method ParseColumns(ghost cs: Option<seq<string>>) returns (ok: bool)
      requires Ready()
      requires cs.Some? ==> ColumnsEnd(src, Cur(), cs.value).Some?
      modifies `pos, `lineno, `token, `lexum, `heads, `opens, `errcode, `out
      ensures Read(ok)
      ensures cs.Some? ==> Copied(ok, old(out), ColumnsEnd(src, old(Cur()), cs.value), ColumnsPieces(cs.value))
    {
      hide Ready, Due, Risks, Skipper, NextCursor, NextOk, Balance, Head, Callee;
      ghost var rest := cs;
      ghost var goal := if cs.Some? then out + ColumnsPieces(cs.value) else [];
      ghost var end := if cs.Some? then ColumnsEnd(src, Cur(), cs.value) else None;
      if cs.Some? {
        ColumnsStart(src, Cur(), cs.value);
      }
      ok := true;
      while token.ID?
        invariant Read(ok) && ok
        invariant rest.Some? ==>
                    && end.Some? && ColumnsEnd(src, Cur(), rest.value) == end && token.ID? && cs.Some?
                    && out + ColumnsPieces(rest.value) == goal && rest.value != []
        invariant cs.Some? && rest.None? ==> end == Some(Cur()) && out == goal && !token.ID?
        decreases Measure()
      {
        ghost var before := out;
        ok := ParseColumn(rest);
        if !ok { return; }
        if rest.Some? {
          if |rest.value| == 1 {
            rest := None;
          } else {
            Assoc(before, [Word(rest.value[0]), Word(",")], ColumnsPieces(rest.value[1..]));
            rest := Some(rest.value[1..]);
          }
        }
      }
    }

    /** ") VALUES (" */
    method ParseValuesHead() returns (ok: bool)
      requires Ready() && Balance(out) > 0
      modifies `pos, `lineno, `token, `lexum, `heads, `opens, `errcode, `out
      ensures Skimmed(ok)
      ensures ok <==> ValuesHeadEnd(src, old(Cur())).Some?
      ensures ok ==> Copied(ok, old(out), ValuesHeadEnd(src, old(Cur())), [Close, Word(" VALUES "), Open])
      ensures Even(ok, 0)
    {
      hide Ready, Due, Risks, Skipper, NextCursor, NextOk, Balance, Head, Callee;
      if !token.RPAR? {
        errcode := ExpRpar;
        return false;
      }
      EmitClose();
      ok := ParseValuesWord();
      if !ok { return; }
      EmitWord(" VALUES ");
      Emit(Open);
      ok := Advance();
    }

    /** From ')' over VALUES to '('. */
    method ParseValuesWord() returns (ok: bool)
      requires Ready()
      modifies `pos, `lineno, `token, `lexum, `heads, `opens, `errcode
      ensures Ready() && Measure() <= old(Measure()) && heads >= old(heads) && opens >= old(opens)
      ensures var v := NextCursor(src, old(Cur()));
              && (ok <==>
                    NextOk(src, old(Cur())) && v.token.VALUES? && NextOk(src, v) && NextCursor(src, v).token.LPAR?)
              && (ok ==> Cur() == NextCursor(src, v))
      ensures Even(ok, -Paren(old(token)))
    {
      hide Ready, Due, Risks, Skipper, Balance, NextCursor, NextOk, Head, Callee;
      ok := Expect(VALUES, ExpValues);
      if !ok { return; }
      ok := Expect(LPAR, ExpLpar);
    }

    /** A value as it is written; a variable becomes a placeholder without an index. */
    method EmitValue()
      requires Ready()
      modifies `out, `unbound
      ensures Ready() && Balance(out) == old(Balance(out))
      ensures out == old(out) + [
                if token.VAR? then Unbound(VarName(lexum)) else if token.STRLIT? then Quoted(lexum, false)
                  else Word(lexum)]
    {
      hide Ready, Due, Risks, Skipper, Balance;
      if token.VAR? {
        EmitUnbound(VarName(lexum));
      } else if token.STRLIT? {
        Emit(Quoted(lexum, false));
      } else {
        EmitWord(lexum);
      }
    }

    /** A value of VALUES. */
    method ParseValue(ghost v: Option<Value>) returns (ok: bool)
      requires Ready() && StartsValue(token)
      requires v.Some? ==> ValueEnd(src, Cur(), v.value).Some?
      modifies `pos, `lineno, `token, `lexum, `heads, `opens, `errcode, `out, `ufields, `unbound
      ensures Read(ok) && (ok ==> Measure() < old(Measure()))
      ensures v.Some? ==> Copied(ok, old(out), ValueEnd(src, old(Cur()), v.value), [ValuePiece(v.value)])
    {
      hide Ready, Due, Risks, Skipper, NextCursor, NextOk, Balance, Head, FunctionEnd, FunctionPieces;
      if token.FUNC? {
        ok := ParseFunction();
      } else {
        EmitValue();
        ok := Advance();
      }
    }

    /** The comma after a value. */
    method ParseValueComma() returns (ok: bool)
      requires Ready()
      modifies `pos, `lineno, `token, `lexum, `heads, `opens, `errcode, `out
      ensures Read(ok)
      ensures !old(token).COMMA? ==> Copied(ok, old(out), Some(old(Cur())), [])
      ensures old(token).COMMA? ==>
                && (ok <==> NextOk(src, old(Cur())) && StartsValue(token))
                && Cur() == NextCursor(src, old(Cur())) && (ok ==> out == old(out) + [Word(",")])
    {
      hide Ready, Due, Risks, Skipper, NextCursor, NextOk, Balance, Head, StartsValue;
      ok := true;
      if token.COMMA? {
        ok := Advance();
        if !ok { return; }
        if !StartsValue(token) {
          errcode := ExpFields;
          return false;
        }
        EmitWord(",");
      }
    }

    /** One value and the comma after it. */
    method ParseValueItem(ghost vs: Option<seq<Value>>) returns (ok: bool)
      requires Ready() && StartsValue(token)
      requires vs.Some? ==> ValuesEnd(src, Cur(), vs.value).Some?
      modifies `pos, `lineno, `token, `lexum, `heads, `opens, `errcode, `out, `ufields, `unbound
      ensures Read(ok) && (ok ==> Measure() < old(Measure()))
      ensures vs.Some? ==> ok && vs.value != []
      ensures vs.Some? && |vs.value| == 1 ==>
                && !StartsValue(token)
                && Copied(ok, old(out), ValuesEnd(src, old(Cur()), vs.value), [ValuePiece(vs.value[0])])
      ensures vs.Some? && |vs.value| > 1 ==>
                && StartsValue(token) && ValuesEnd(src, Cur(), vs.value[1..]) == ValuesEnd(src, old(Cur()), vs.value)
                && out == old(out) + [ValuePiece(vs.value[0]), Word(",")]
    {
      hide Ready, Due, Risks, Skipper, NextCursor, NextOk, Balance, Head, Callee, ValueEnd, ValuePiece, StartsValue;
      if vs.Some? && |vs.value| > 1 {
        ValuesStart(src, NextCursor(src, ValueEnd(src, Cur(), vs.value[0]).value), vs.value[1..]);
      }
      ok := ParseValue(if vs.Some? then Some(vs.value[0]) else None);
      if !ok { return; }
      ok := ParseValueComma();
    }

    method ParseValues(ghost vs: Option<seq<Value>>) returns (ok: bool)
      requires Ready()
      requires vs.Some? ==> ValuesEnd(src, Cur(), vs.value).Some?
      modifies `pos, `lineno, `token, `lexum, `heads, `opens, `errcode, `out, `ufields, `unbound
      ensures Read(ok)
      ensures vs.Some? ==> Copied(ok, old(out), ValuesEnd(src, old(Cur()), vs.value), ValuesPieces(vs.value))
    {
      hide Ready, Due, Risks, Skipper, NextCursor, NextOk, Balance, Head, Callee, ValueEnd, ValuePiece, StartsValue;
      ghost var rest := vs;
      ghost var goal := if vs.Some? then out + ValuesPieces(vs.value) else [];
      ghost var end := if vs.Some? then ValuesEnd(src, Cur(), vs.value) else None;
      if vs.Some? {
        ValuesStart(src, Cur(), vs.value);
      }
      ok := true;
      while StartsValue(token)
        invariant Read(ok) && ok
        invariant rest.Some? ==>
                    && end.Some? && ValuesEnd(src, Cur(), rest.value) == end && StartsValue(token) && vs.Some?
                    && out + ValuesPieces(rest.value) == goal && rest.value != []
        invariant vs.Some? && rest.None? ==> end == Some(Cur()) && out == goal && !StartsValue(token)
        decreases Measure()
      {
        ghost var before := out;
        ok := ParseValueItem(rest);
        if !ok { return; }
        if rest.Some? {
          if |rest.value| == 1 {
            rest := None;
          } else {
            Assoc(before, [ValuePiece(rest.value[0]), Word(",")], ValuesPieces(rest.value[1..]));
            rest := Some(rest.value[1..]);
          }
        }
      }
    }

    /** ") VALUES (" and the values with their ')'. */
    method ParseInsertTail(ghost vs: Option<seq<Value>>) returns (ok: bool)
      requires Ready() && Balance(out) > 0
      requires vs.Some? ==> InsertTailEnd(src, Cur(), vs.value).Some?
      modifies `pos, `lineno, `token, `lexum, `heads, `opens, `errcode, `out, `ufields, `unbound
      ensures Ready() && Measure() <= old(Measure()) && heads >= old(heads) && opens >= old(opens)
      ensures ok ==> Balance(out) == old(Balance(out)) - 1
      ensures vs.Some? ==> Copied(ok, old(out), InsertTailEnd(src, old(Cur()), vs.value), InsertTailPieces(vs.value))
      ensures Even(ok, 0)
    {
      hide Ready, Due, Risks, Skipper, NextCursor, NextOk, Balance, Head, Callee, ValuesHeadEnd, ValuesEnd;
      hide ValuesPieces;
      if vs.Some? {
        Assoc(out + [Close, Word(" VALUES "), Open], ValuesPieces(vs.value), [Close]);
        Assoc(out, [Close, Word(" VALUES "), Open], ValuesPieces(vs.value) + [Close]);
      }
      ok := ParseValuesHead();
      if !ok { return; }
      ok := ParseValues(vs);
      if !ok { return; }
      ok := ParseClose();
    }

    method ParseInsert(ghost i: Option<Insertion>) returns (ok: bool)
      requires Ready()
      requires i.Some? ==> InsertEnd(src, Cur(), i.value).Some?
      modifies `pos, `lineno, `token, `lexum, `heads, `opens, `errcode, `out, `ufields, `unbound
      ensures Skimmed(ok)
      ensures i.Some? ==> Copied(ok, old(out), InsertEnd(src, old(Cur()), i.value), InsertPieces(i.value))
      ensures Even(ok, 0)
    {
      hide Ready, Due, Risks, Skipper, NextCursor, NextOk, Balance, Head, Callee;
      hide InsertHeadEnd, InsertHeadPieces, ColumnsEnd, ColumnsPieces, InsertTailEnd, InsertTailPieces;
      NotNegative();
      if i.Some? {
        ghost var a, b, c := InsertHeadPieces(i.value.table), ColumnsPieces(i.value.columns),
          InsertTailPieces(i.value.values);
        Assoc(out + a, b, c);
        Assoc(out, a, b + c);
      }
      ok := ParseInsertHead(if i.Some? then Some(i.value.table) else None);
      if !ok { return; }
      ok := ParseColumns(if i.Some? then Some(i.value.columns) else None);
      if !ok { return; }
      ok := ParseInsertTail(if i.Some? then Some(i.value.values) else None);
    }

    /** The right-hand side of an assignment; the caller skips its last token, and
        after a function the token behind it. */
    method ParseSetValue(ghost v: Option<Value>) returns (ok: bool)
      requires Ready()
      requires v.Some? ==> ValueEnd(src, Cur(), v.value).Some? && !v.value.Ident?
      modifies `pos, `lineno, `token, `lexum, `heads, `opens, `errcode, `out, `ufields, `unbound
      ensures Skimmed(ok) && (ok ==> !old(token).EOS?)
      ensures v.Some? ==> Copied(ok, old(out), Some(old(Cur())), [ValuePiece(v.value)])
      ensures strict ==> Even(ok, 0)
      ensures ok && strict && Risk() == old(Risk()) ==> Paren(token) == 0
    {
      hide Ready, Due, Risks, Skipper, NextCursor, NextOk, Balance, Head, Callee, FunctionEnd, FunctionPieces;
      ok := true;
      if token.NUM? || token.STRLIT? || token.VAR? {
        EmitValue();
      } else if token.FUNC? {
        ok := ParseFunction();
      } else {
        errcode := SyntaxError;
        ok := false;
      }
    }

    /** "field = ", up to the value. */
    method ParseSetName(ghost s: Option<Setting>) returns (ok: bool)
      requires Ready() && token.ID?
      requires s.Some? ==> SettingEnd(src, Cur(), s.value).Some?
      modifies `pos, `lineno, `token, `lexum, `heads, `opens, `errcode, `out, `ufields
      ensures Skimmed(ok) && (ok ==> Measure() < old(Measure()))
      ensures s.Some? ==>
                && ok && ValueEnd(src, Cur(), s.value.value) == SettingEnd(src, old(Cur()), s.value)
                && out == old(out) + (NamePieces(s.value.name) + [Word(" = ")])
      ensures Even(ok, 0)
    {
      hide Ready, Due, Risks, Skipper, NextCursor, NextOk, Balance, Head, Callee, NamePieces, FieldPieces;
      hide ValueEnd, ReadField;
      ok := ParseField(false);
      if !ok { return; }
      if !token.EQ? {
        errcode := ExpOp;
        return false;
      }
      EmitWord(" = ");
      ok := Advance();
    }

    method ParseAssignment(ghost s: Option<Setting>) returns (ok: bool)
      requires Ready() && token.ID?
      requires s.Some? ==> SettingEnd(src, Cur(), s.value).Some?
      modifies `pos, `lineno, `token, `lexum, `heads, `opens, `errcode, `out, `ufields, `unbound
      ensures Skimmed(ok) && (ok ==> Measure() < old(Measure()))
      ensures s.Some? ==> Copied(ok, old(out), SettingEnd(src, old(Cur()), s.value), SettingPieces(s.value))
      ensures strict ==> Even(ok, 0)
    {
      hide Ready, Due, Risks, Skipper, NextCursor, NextOk, Balance, Head, Callee, NamePieces, NameEnd, ValuePiece;
      if s.Some? {
        SettingAssoc(out, s.value);
      }
      ok := ParseSetName(s);
      if !ok { return; }
      ok := ParseSetValue(if s.Some? then Some(s.value.value) else None);
      if !ok { return; }
      EmitWord(" ");
      ok := Advance();
    }

    /** One assignment and the comma after it. */
    method ParseSettingItem(ghost ss: Option<seq<Setting>>) returns (ok: bool)
      requires Ready() && token.ID?
      requires ss.Some? ==> SettingsEnd(src, Cur(), ss.value).Some?
      modifies `pos, `lineno, `token, `lexum, `heads, `opens, `errcode, `out, `ufields, `unbound
      ensures Skimmed(ok) && (ok ==> Measure() < old(Measure()))
      ensures ss.Some? ==> ok && ss.value != []
      ensures ss.Some? && |ss.value| == 1 ==>
                !token.ID? && Copied(ok, old(out), SettingsEnd(src, old(Cur()), ss.value), SettingsPieces(ss.value))
      ensures ss.Some? && |ss.value| > 1 ==>
                && token.ID? && SettingsEnd(src, Cur(), ss.value[1..]) == SettingsEnd(src, old(Cur()), ss.value)
                && out == old(out) + (SettingPieces(ss.value[0]) + [Word(",")])
      ensures strict ==> Even(ok, 0)
    {
      hide Ready, Due, Risks, Skipper, NextCursor, NextOk, Balance, Head, Callee, SettingEnd, SettingPieces;
      if ss.Some? && |ss.value| > 1 {
        SettingsStart(src, NextCursor(src, SettingEnd(src, Cur(), ss.value[0]).value), ss.value[1..]);
      }
      ok := ParseAssignment(if ss.Some? then Some(ss.value[0]) else None);
      if !ok { return; }
      if token.COMMA? {
        EmitWord(",");
        ok := Expect(ID, ExpFields);
      }
    }

    method ParseAssignments(ghost ss: Option<seq<Setting>>) returns (ok: bool)
      requires Ready()
      requires ss.Some? ==> SettingsEnd(src, Cur(), ss.value).Some?
      modifies `pos, `lineno, `token, `lexum, `heads, `opens, `errcode, `out, `ufields, `unbound
      ensures Skimmed(ok)
      ensures ss.Some? ==> Copied(ok, old(out), SettingsEnd(src, old(Cur()), ss.value), SettingsPieces(ss.value))
      ensures strict ==> Even(ok, 0)
    {
      hide Ready, Due, Risks, Skipper, NextCursor, NextOk, Balance, Head, Callee, SettingEnd, SettingPieces;
      ghost var rest := ss;
      ghost var goal := if ss.Some? then out + SettingsPieces(ss.value) else [];
      ghost var end := if ss.Some? then SettingsEnd(src, Cur(), ss.value) else None;
      if ss.Some? {
        SettingsStart(src, Cur(), ss.value);
      }
      ok := true;
      while token.ID?
        invariant Skimmed(ok) && ok && (strict ==> Even(ok, 0))
        invariant rest.Some? ==>
                    && end.Some? && SettingsEnd(src, Cur(), rest.value) == end && token.ID? && ss.Some?
                    && out + SettingsPieces(rest.value) == goal && rest.value != []
        invariant ss.Some? && rest.None? ==> end == Some(Cur()) && out == goal && !token.ID?
        decreases Measure()
      {
        ghost var before := out;
        ok := ParseSettingItem(rest);
        if !ok { return; }
        if rest.Some? {
          if |rest.value| == 1 {
            rest := None;
          } else {
            Assoc(before, SettingPieces(rest.value[0]) + [Word(",")], SettingsPieces(rest.value[1..]));
            rest := Some(rest.value[1..]);
          }
        }
      }
    }

    /** "UPDATE table SET" */
    method ParseUpdateHead(ghost table: Option<string>) returns (ok: bool)
      requires Ready()
      requires table.Some? ==> UpdateHeadEnd(src, Cur(), table.value).Some?
      modifies `pos, `lineno, `token, `lexum, `heads, `opens, `errcode, `out
      ensures Skimmed(ok)
      ensures table.Some? ==> Copied(
                ok, old(out), UpdateHeadEnd(src, old(Cur()), table.value), UpdateHeadPieces(table.value))
      ensures Even(ok, 0)
    {
      hide Ready, Due, Risks, Skipper, NextCursor, NextOk, Balance, Head, Callee, DefinePieces, UpdateHeadEnd, SkipTo;
      if table.Some? {
        UpdateHeadParts(src, Cur(), table.value);
        Assoc(out, [Word("UPDATE ")] + DefinePieces(table.value), [Word(" SET ")]);
      }
      if !token.UPDATE? {
        errcode := SyntaxError;
        return false;
      }
      ok := ParseUpdateTable();
      if !ok { return; }
      ok := ParseSetWord();
    }

    /** SET and the token behind it. */
    method ParseSetWord() returns (ok: bool)
      requires Ready()
      modifies `pos, `lineno, `token, `lexum, `heads, `opens, `errcode, `out
      ensures Skimmed(ok) && Even(ok, -Paren(old(token)))
      ensures var r := SkipTo(src, old(Cur()), SET);
              && (ok <==> r.Some? && NextOk(src, r.value))
              && (ok ==> Copied(ok, old(out), Skip(src, r.value), [Word(" SET ")]))
    {
      hide Ready, Due, Risks, Skipper, NextCursor, NextOk, Balance, Head, Callee;
      ok := Expect(SET, ExpSet);
      if !ok { return; }
      EmitWord(" SET ");
      ok := Advance();
    }

    /** The table of an UPDATE. */
    method ParseUpdateTable() returns (ok: bool)
      requires Ready()
      modifies `pos, `lineno, `token, `lexum, `heads, `opens, `errcode, `out
      ensures Skimmed(ok)
      ensures (ok <==> SkipTo(src, old(Cur()), ID).Some?) && (ok ==> token.ID?)
      ensures ok ==> Copied(ok, old(out), SkipTo(src, old(Cur()), ID), [Word("UPDATE ")] + DefinePieces(lexum))
      ensures Even(ok, -Paren(old(token)))
    {
      hide Ready, Due, Risks, Skipper, NextCursor, NextOk, Balance, Head, Callee, DefinePieces;
      EmitWord("UPDATE ");
      ok := Expect(ID, ExpTable);
      if !ok { return; }
      EmitDefine();
    }

    // ------------------------------------------------------------ statements

    /** What a whole statement keeps. */
    twostate predicate Statement(ok: bool)
      reads this
    {
      && Valid() && leftover >= old(leftover) && acts >= old(acts) && act == old(act) && lookup == old(lookup)
      && acts - heads <= old(acts - heads) && Even(false, 0)
      && (ok ==> Excess() == old(Excess()) && opens - leftover >= old(opens - leftover))
    }

    method ParseUpdate(ghost u: Option<Updating>) returns (ok: bool)
      requires Valid() && Placed(hosts, act) == 0
      requires u.Some? ==> UpdateEnd(src, Cur(), u.value).Some?
      modifies this
      ensures Statement(ok)
      ensures u.Some? ==>
                if ClauseRule(u.value.where) && old(Fit(ClauseVars(u.value.where))) then
                  && Copied(ok, old(out), UpdateEnd(src, old(Cur()), u.value),
                            UpdateHeadPieces(u.value.table) + UpdateTailPieces(u.value, lookup, act))
                  && hosts == old(hosts) + HostsFor(ClauseVars(u.value.where), lookup, 0, act)
                else !ok
      ensures strict ==> Even(ok, 0)
    {
      hide Ready, Due, Risks, Skipper, Indexed, NextCursor, NextOk, Balance, Placed, Outer, Room, Head;
      hide Callee, ClauseRule;
      hide UpdateHeadEnd, UpdateHeadPieces, SettingsEnd, SettingsPieces, ClauseEnd, ClausePieces, ClauseVars, HostsFor;
      if u.Some? {
        ghost var a, b, c := UpdateHeadPieces(u.value.table), SettingsPieces(u.value.settings),
                             ClausePieces(" WHERE ", u.value.where, lookup, 0, act);
        Assoc(out + a, b, c);
        Assoc(out, a, b + c);
      }
      ok := ParseUpdateHead(if u.Some? then Some(u.value.table) else None);
      if !ok { return; }
      ok := ParseAssignments(if u.Some? then Some(u.value.settings) else None);
      if !ok { return; }
      var n;
      ok, n := ParseWhere(0, false, if u.Some? then Some(u.value.where) else None);
    }

    method ParseDelete(ghost b: Option<Body>) returns (ok: bool)
      requires Valid() && Placed(hosts, act) == 0
      requires b.Some? ==> DeleteEnd(src, Cur(), b.value).Some?
      modifies this
      ensures Statement(ok) && unbound == old(unbound)
      ensures b.Some? ==>
                if BodyRule(b.value) && old(Fit(BodyVars(b.value))) then
                  && Copied(ok, old(out), DeleteEnd(src, old(Cur()), b.value),
                            [Word("DELETE ")] + BodyPieces(b.value, lookup, 0, act))
                  && hosts == old(hosts) + HostsFor(BodyVars(b.value), lookup, 0, act)
                else !ok
      ensures Even(ok, 0)
    {
      hide Ready, Due, Risks, Skipper, Indexed, NextCursor, NextOk, Balance, Placed, Outer, Room, Head, BodyRule;
      hide BodyEnd, BodyPieces, BodyVars, HostsFor;
      if b.Some? {
        Assoc(out, [Word("DELETE ")], BodyPieces(b.value, lookup, 0, act));
      }
      if !token.DELETE? {
        errcode := SyntaxError;
        return false;
      }
      ok := Advance();
      if !ok { return; }
      EmitWord("DELETE ");
      var n;
      ok, n := ParseBody(0, false, b);
    }

    /** The statement, by its first token; a nested SELECT leaves stmttype at SELECT. */
    method ParseStatement(ghost s: Option<SqlStatement.Statement>) returns (ok: bool)
      requires Valid() && !token.EOS? && hosts == [] && act == acts == 0 && unbound == leftover == 0
      requires s.Some? ==> StatementEnd(src, Cur(), s.value).Some?
      modifies this
      ensures Statement(ok)
      ensures ok ==> old(token) in {SELECT, INSERT, UPDATE, DELETE}
      ensures ok && old(token).SELECT? ==> unbound == 0 && acts > 0 && Placed(hosts, 0) == 0
      ensures ok && old(token).DELETE? ==> unbound == 0
      ensures s.Some? ==>
                && old(token) == KindOf(s.value)
                && if StatementRule(s.value) && old(Fit(StatementVars(s.value))) then
                  && Copied(ok, old(out), StatementEnd(src, old(Cur()), s.value), StatementPieces(s.value, lookup))
                  && hosts == StatementHosts(s.value, lookup)
                else !ok
      ensures old(token).UPDATE? ==> strict ==> Even(ok, 0)
      ensures !old(token).UPDATE? ==> Even(ok, 0)
    {
      hide Ready, Due, Risks, Skipper, Indexed, NextCursor, NextOk, Balance, Callee, Room, QueryRule;
      hide BodyRule, ClauseRule;
      hide QueryEnd, QueryPieces, QueryHosts, DeleteEnd, BodyPieces, BodyVars, UpdateEnd, UpdateHeadPieces;
      hide UpdateTailPieces;
      hide InsertEnd, InsertPieces, ClauseVars, HostsFor;
      assert Placed(hosts, 0) == 0;
      hide Placed;
      RoomNone(lookup, hosts);
      if s.Some? {
        StatementStart(src, Cur(), s.value);
      }
      if token.SELECT? {
        ok := ParseSelect(false, if s.Some? then Some(s.value.query) else None);
      } else if token.INSERT? {
        stmttype := INSERT;
        ok := ParseInsert(if s.Some? then Some(s.value.insertion) else None);
      } else if token.UPDATE? {
        stmttype := UPDATE;
        ok := ParseUpdate(if s.Some? then Some(s.value.update) else None);
      } else if token.DELETE? {
        stmttype := DELETE;
        ok := ParseDelete(if s.Some? then Some(s.value.body) else None);
      } else {
        errcode := SyntaxError;
        ok := false;
      }
    }

    // ------------------------------------------------------------ the procedure

    /** Adds a declared parameter with every slot free. */
    method DeclareParam(name: string)
      requires Indexed() && hosts == []
      modifies `params, `lookup
      ensures Indexed()
      ensures params == old(params) + [Param(name, Free(PRMIDXLEN), false)]
      ensures lookup == old(lookup)[name := |old(params)|]
    {
      params := params + [Param(name, Free(PRMIDXLEN), false)];
      lookup := lookup[name := |params| - 1];
    }

    /** INT, SMALLINT, BIGINT or CHAR(n), up to its last token. */
    method ParseType(ghost t: Option<Type>) returns (ok: bool)
      requires Ready()
      requires t.Some? ==> TypeEnd(src, Cur(), t.value).Some?
      modifies `pos, `lineno, `token, `lexum, `heads, `opens, `errcode
      ensures Ready() && Measure() <= old(Measure())
      ensures t.Some? ==> ok && Skip(src, Cur()) == TypeEnd(src, old(Cur()), t.value)
      ensures Even(ok, Paren(token))
    {
      hide Ready, Due, Risks, Skipper, Balance, NextCursor, NextOk, Head, Callee;
      if token.INT? || token.SMALLINT? || token.BIGINT? {
        return true;
      }
      if !token.CHAR? {
        errcode := ExpType;
        return false;
      }
      ok := Expect(LPAR, ExpLpar);
      if !ok { return; }
      ok := Expect(NUM, ExpLen);
      if !ok { return; }
      ok := Expect(RPAR, ExpRpar);
    }

    /** One parameter declaration and the comma after it. */
    method ParseParam(ghost ds: Option<seq<Declaration>>) returns (ok: bool)
      requires Ready() && Indexed() && hosts == [] && token.VAR?
      requires ds.Some? ==> DeclarationsEnd(src, Cur(), ds.value).Some?
      modifies `pos, `lineno, `token, `lexum, `heads, `opens, `errcode, `params, `lookup
      ensures Ready() && Indexed() && (ok ==> Measure() < old(Measure()))
      ensures params == old(params) + [Param(old(lexum), Free(PRMIDXLEN), false)]
      ensures lookup == old(lookup)[old(lexum) := |old(params)|]
      ensures ds.Some? ==>
                && ok && ds.value != [] && ds.value[0].name == old(lexum)
                && DeclarationsEnd(src, Cur(), ds.value[1..]) == DeclarationsEnd(src, old(Cur()), ds.value)
      ensures Even(ok, 0)
    {
      hide Ready, Due, Risks, Skipper, NextCursor, NextOk, Indexed, Head, Callee, TypeEnd;
      DeclareParam(lexum);
      ok := Advance();
      if !ok { return; }
      ok := ParseType(if ds.Some? then Some(ds.value[0].typ) else None);
      if !ok { return; }
      ok := Advance();
      if ok && token.COMMA? {
        ok := Advance();
      }
    }

    method ParseParams(ghost ds: Option<seq<Declaration>>) returns (ok: bool)
      requires Ready() && Indexed() && hosts == []
      requires ds.Some? ==> DeclarationsEnd(src, Cur(), ds.value).Some? && params == [] && lookup == map[]
      modifies `pos, `lineno, `token, `lexum, `heads, `opens, `errcode, `params, `lookup
      ensures Ready() && Indexed()
      ensures ds.Some? ==>
                && ok && Some(Cur()) == DeclarationsEnd(src, old(Cur()), ds.value)
                && params == Declared(ds.value) && lookup == LookupOf(ds.value)
      ensures Even(ok, 0)
    {
      hide Ready, Due, Risks, Skipper, Indexed, NextCursor, NextOk, Head, Callee, DeclarationEnd;
      ok := true;
      ghost var k := 0;
      ghost var end := if ds.Some? then DeclarationsEnd(src, Cur(), ds.value) else None;
      while token.VAR?
        invariant Ready() && Indexed() && ok && Even(ok, 0)
        invariant ds.Some? ==>
                    && k <= |ds.value| && params == Declared(ds.value[..k]) && lookup == LookupOf(ds.value[..k])
                    && end.Some? && DeclarationsEnd(src, Cur(), ds.value[k..]) == end
        decreases Measure()
      {
        ok := ParseParam(if ds.Some? then Some(ds.value[k..]) else None);
        if !ok { return; }
        if ds.Some? {
          DeclaredNext(ds.value, k);
          assert ds.value[k..][1..] == ds.value[k + 1..];
        }
        k := k + 1;
      }
      if ds.Some? {
        DeclarationsStart(src, Cur(), ds.value[k..]);
        assert ds.value[..|ds.value|] == ds.value;
      }
    }

    /** The ')' of the parameters. */
    method ParseParamsClose() returns (ok: bool)
      requires Ready()
      modifies `pos, `lineno, `token, `lexum, `heads, `opens, `errcode
      ensures Ready() && (ok <==> Take(src, old(Cur()), RPAR).Some?)
      ensures ok ==> Some(Cur()) == Take(src, old(Cur()), RPAR)
      ensures Even(ok, 1)
    {
      hide Ready, Due, Risks, Skipper, Balance, NextCursor, NextOk, Head, Callee;
      if !token.RPAR? {
        errcode := ExpRpar;
        return false;
      }
      ok := Advance();
    }

    /** AS and the token behind it. */
    method ParseAs() returns (ok: bool)
      requires Ready()
      modifies `pos, `lineno, `token, `lexum, `heads, `opens, `errcode
      ensures Ready() && (ok <==> Take(src, old(Cur()), AS).Some?)
      ensures ok ==> Some(Cur()) == Take(src, old(Cur()), AS)
      ensures Even(ok, 0)
    {
      hide Ready, Due, Risks, Skipper, Balance, NextCursor, NextOk, Head, Callee;
      if !token.AS? {
        errcode := ExpAs;
        return false;
      }
      ok := Advance();
    }

    /** The '(' of the parameters, if there is one. */
    method ParseParamsOpen() returns (ok: bool, parens: bool)
      requires Ready()
      modifies `pos, `lineno, `token, `lexum, `heads, `opens, `errcode
      ensures Ready()
      ensures var a := NextCursor(src, old(Cur()));
              && (NextOk(src, old(Cur())) ==> parens == (a.token.LPAR?))
              && (ok <==> NextOk(src, old(Cur())) && OpenEnd(src, a, a.token.LPAR?).Some?)
              && (ok ==> Some(Cur()) == OpenEnd(src, a, a.token.LPAR?))
      ensures Even(ok, -Paren(old(token)) - if parens then 1 else 0)
    {
      hide Ready, Due, Risks, Skipper, Balance, NextCursor, NextOk, Head, Callee;
      ok := Advance();
      parens := token.LPAR?;
      if ok && parens {
        ok := Advance();
      }
    }

    method ParseParamList(ghost p: Option<Procedure>) returns (ok: bool)
      requires Ready() && Indexed() && hosts == []
      requires p.Some? ==> ParamsEnd(src, Cur(), p.value).Some? && params == [] && lookup == map[]
      modifies `pos, `lineno, `token, `lexum, `heads, `opens, `errcode, `params, `lookup
      ensures Ready() && Indexed()
      ensures p.Some? ==>
                && ok && Some(Cur()) == ParamsEnd(src, old(Cur()), p.value)
                && params == Declared(p.value.params) && lookup == LookupOf(p.value.params)
      ensures Even(ok, -Paren(old(token)))
    {
      hide Ready, Due, Risks, Skipper, Indexed, NextCursor, NextOk, DeclarationsEnd, Declared, LookupOf;
      var expectRPAR;
      ok, expectRPAR := ParseParamsOpen();
      if !ok { return; }
      ok := ParseParams(if p.Some? then Some(p.value.params) else None);
      if !ok { return; }
      if expectRPAR {
        ok := ParseParamsClose();
        if !ok { return; }
      }
      ok := ParseAs();
    }

    /** CREATE PROCEDURE and the system name. */
    method ParseSystem() returns (ok: bool)
      requires Ready()
      modifies `pos, `lineno, `token, `lexum, `heads, `opens, `errcode, `sys
      ensures Ready() && (ok <==> SystemAt(src, old(Cur())).Some?)
      ensures ok ==> Some(Cur()) == SystemAt(src, old(Cur())) && sys == Upper(lexum)
      ensures Even(ok, -Paren(old(token))) && (ok ==> token.ID?)
    {
      hide Upper, Ready, Due, Risks, Skipper, Balance, NextCursor, NextOk, Head, Callee;
      ok := Expect(CREATE, ExpCreate);
      if !ok { return; }
      ok := Expect(PROC, ExpProc);
      if !ok { return; }
      ok := Expect(ID, ExpProc);
      if !ok { return; }
      sys := Upper(lexum);
    }

    /** CREATE PROCEDURE system.name */
    method ParseName(ghost p: Option<Procedure>) returns (ok: bool)
      requires Ready()
      requires p.Some? ==> TitleEnd(src, Cur(), p.value).Some?
      modifies `pos, `lineno, `token, `lexum, `heads, `opens, `errcode, `sys, `name
      ensures Ready()
      ensures p.Some? ==>
                && ok && Some(Cur()) == TitleEnd(src, old(Cur()), p.value)
                && sys == Upper(p.value.system) && name == Upper(p.value.name)
      ensures Even(ok, -Paren(old(token)))
      ensures ok ==> token.FUNC? || token.ID?
    {
      hide Ready, Due, Risks, Skipper, Balance, NextCursor, NextOk, Head, Callee, SystemAt;
      ok := ParseSystem();
      if !ok { return; }
      ok := Expect(DOT, ExpDot);
      if !ok { return; }
      ok := Advance();
      if !ok { return; }
      if !token.FUNC? && !token.ID? {
        errcode := ExpProc;
        return false;
      }
      name := Upper(lexum);
    }

    /** The end of the text, after at most one ';'. */
    method ParseEnd() returns (ok: bool)
      requires Ready()
      modifies `pos, `lineno, `token, `lexum, `heads, `opens, `errcode
      ensures Ready() && (ok ==> token.EOS? && pos == |src|) && heads >= old(heads) && opens >= old(opens)
      ensures ok <==> Finished(src, old(Cur()))
      ensures Even(ok, 0)
    {
      hide Counted, Paired, Lex, Due, Risks, Skipper, Balance;
      DueNext(src, Cur(), strict);
      if token.SEMI? {
        var ignored := Tokenize();
      }
      ok := token.EOS?;
      if !ok {
        errcode := SyntaxError;
      }
    }

    /** From the parameters to the end of the text. */
    method ParseRest(ghost p: Option<Procedure>) returns (ok: bool, kind: Token)
      requires Valid() && hosts == [] && act == acts == 0 && out == [] && leftover == unbound == 0
      requires p.Some? ==>
                 && RestEnd(src, Cur(), p.value).Some? && params == [] && lookup == map[]
      modifies this
      ensures Valid()
      ensures ok ==> token.EOS? && pos == |src| && Balance(out) == leftover <= opens
      ensures acts <= heads
      ensures ok ==> kind in {EOS, SELECT, INSERT, UPDATE, DELETE}
      ensures ok && kind in {EOS, SELECT, DELETE} ==> UnboundIn(out) == 0
      ensures ok && kind.SELECT? ==> acts > 0 && Placed(hosts, 0) == 0
      ensures p.Some? ==> kind == KindOf(p.value.statement) && lookup == LookupOf(p.value.params)
      ensures p.Some? ==>
                (ok <==>
                  && Finished(src, RestEnd(src, old(Cur()), p.value).value) && StatementRule(p.value.statement)
                  && Fits(p.value))
      ensures p.Some? && ok ==>
                && out == StatementPieces(p.value.statement, lookup)
                && hosts == StatementHosts(p.value.statement, lookup)
      ensures Even(ok && (kind.UPDATE? ==> strict), -Paren(old(token)))
    {
      hide NextCursor, NextOk, Indexed, Placed, Outer, Heads, Opens, Newlines, Room, Head, Callee, Balance;
      hide Due, Risks, Skipper;
      hide Finished, StatementRule;
      hide ParamsEnd, StatementEnd, StatementPieces, StatementHosts, StatementVars, LookupOf, Declared, Counted;
      kind := EOS;
      BalanceNone();
      ok := ParseParamList(p);
      if !ok { return; }
      if !token.EOS? {
        kind := token;
        ok := ParseStatement(if p.Some? then Some(p.value.statement) else None);
        if !ok { return; }
        ok := ParseEnd();
      } else if p.Some? {
        StatementStart(src, Cur(), p.value.statement);
      }
    }

    /** parseSQL, on a translator as constructed.  `kind` is the first token of the
        statement, EOS when there is none.  Whatever the text, the methods above
        terminate and keep their accounts; in an accepted text every ')' written has
        its '(', and the '(' in excess are those parseConditions left open, no more
        than the text has '(' that can open a condition.  A text that is known to
        spell procedure `p` is accepted exactly when nothing follows, the rules of its
        conditions are met and its variables are declared and find room, and then what
        is written for it is known. */
    method ParseSQL(ghost p: Option<Procedure>) returns (ok: bool, kind: Token)
      requires Valid() && Cur() == INITIAL && hosts == [] && act == acts == 0 && out == [] && leftover == unbound == 0
      requires params == [] && lookup == map[]
      requires p.Some? ==> SpellsProcedure(src, p.value)
      modifies this
      ensures Valid()
      ensures ok ==> pos == |src| && Balance(out) == leftover <= Opens(src, SEMI, 0)
      ensures ok && (kind.UPDATE? ==> strict) && Risks(src, INITIAL, strict) == 0 ==>
                Balance(out) == Due(src, INITIAL)
      ensures acts <= Heads(src, SEMI, 0)
      ensures ok ==> kind in {EOS, SELECT, INSERT, UPDATE, DELETE}
      ensures ok && kind in {EOS, SELECT, DELETE} ==> UnboundIn(out) == 0
      ensures ok && kind.SELECT? ==> acts > 0 && Placed(hosts, 0) == 0
      ensures p.Some? ==>
                && (ok <==> Accepted(src, p.value))
                && kind == KindOf(p.value.statement) && lookup == LookupOf(p.value.params)
      ensures p.Some? && ok ==>
                && out == StatementPieces(p.value.statement, lookup)
                && hosts == StatementHosts(p.value.statement, lookup)
    {
      hide NextCursor, NextOk, Indexed, Placed, Outer, Newlines, Head, Callee, Balance, Fits, Heads, Opens;
      hide Due, Risks, Skipper;
      hide RestEnd, StatementPieces, StatementHosts, LookupOf, TitleEnd, Finished, StatementRule;
      kind := EOS;
      BalanceNone();
      ok := ParseName(p);
      if ok {
        ok, kind := ParseRest(p);
        if ok {
          DueEnd(src, Cur());
        }
      }
    }
  }
}
