/**
  The character level of the T-SQL translator: what one call of the tokenizer
  reads, as a function of the source text and the position.
 */
module SqlLex {

  import opened Common

  datatype Token =
    | EOS | CREATE | PROC | AS | VAR | ID | DOT | SELECT | FROM | SPLAT | LPAR | RPAR | STRLIT
    | EQ | SEMI | COMMA | INT | SMALLINT | BIGINT | CHAR | NUM | WHERE | AND | INNER | JOIN
    | RIGHT | LEFT | ON | OR | INSERT | INTO | VALUES | UPDATE | SET | ORDER | BY | DESC | ASC
    | IN | FUNC | DELETE | GROUP | HAVING | GT | LT | GTEQ | LTEQ | NEQ | LIKE | IS | NULL | NOT
    | UNION | CASE | WHEN | THEN | ELSE | END | DISTINCT

  // ---------------------------------------------------------------- characters

  predicate IsSpace(c: char) { c == ' ' || '\t' <= c <= '\r' }
  predicate IsAlpha(c: char) { 'a' <= c <= 'z' || 'A' <= c <= 'Z' }

  /** The characters scantows accepts. */
  predicate IsWord(c: char) { IsAlpha(c) || IsDigit(c) || c == '_' }

  function ToUpper(c: char): char {
    if 'a' <= c <= 'z' then c - 'a' + 'A' else c
  }

  function Upper(s: string): (u: string)
    ensures |u| == |s|
  {
    seq(|s|, i requires 0 <= i < |s| => ToUpper(s[i]))
  }

  /** The character at pos; the terminating NUL at the end of the text. */
  function Peek(src: string, pos: nat): char {
    if pos < |src| then src[pos] else '\0'
  }

  function Newlines(s: string): nat {
    if s == "" then 0 else Newlines(s[..|s| - 1]) + if s[|s| - 1] == '\n' then 1 else 0
  }

  lemma {:induction false} NewlinesConcat(a: string, b: string)
    ensures Newlines(a + b) == Newlines(a) + Newlines(b)
  {
    if b == "" {
      assert a + b == a;
    } else {
      assert (a + b)[..|a + b| - 1] == a + b[..|b| - 1];
      NewlinesConcat(a, b[..|b| - 1]);
    }
  }

  // ---------------------------------------------------------------- scanners

  /** End of the white space at pos. */
  function SpaceEnd(src: string, pos: nat): (end: nat)
    requires pos <= |src|
    ensures pos <= end <= |src|
    ensures forall i :: pos <= i < end ==> IsSpace(src[i])
    ensures end < |src| ==> !IsSpace(src[end])
    decreases |src| - pos
  {
    if pos < |src| && IsSpace(src[pos]) then SpaceEnd(src, pos + 1) else pos
  }

  function DigitsEnd(src: string, pos: nat): (end: nat)
    requires pos <= |src|
    ensures pos <= end <= |src|
    ensures forall i :: pos <= i < end ==> IsDigit(src[i])
    ensures end < |src| ==> !IsDigit(src[end])
    decreases |src| - pos
  {
    if pos < |src| && IsDigit(src[pos]) then DigitsEnd(src, pos + 1) else pos
  }

  function WordEnd(src: string, pos: nat): (end: nat)
    requires pos <= |src|
    ensures pos <= end <= |src|
    ensures forall i :: pos <= i < end ==> IsWord(src[i])
    ensures end < |src| ==> !IsWord(src[end])
    decreases |src| - pos
  {
    if pos < |src| && IsWord(src[pos]) then WordEnd(src, pos + 1) else pos
  }

  /** Where a string literal stops: at a quote, a newline or the end of the text. */
  function QuoteEnd(src: string, pos: nat): (end: nat)
    requires pos <= |src|
    ensures pos <= end <= |src|
    ensures forall i :: pos <= i < end ==> src[i] != '\'' && src[i] != '\n'
    ensures end < |src| ==> src[end] == '\'' || src[end] == '\n'
    decreases |src| - pos
  {
    if pos < |src| && src[pos] != '\'' && src[pos] != '\n' then QuoteEnd(src, pos + 1) else pos
  }

  // ---------------------------------------------------------------- tokens

  // The reserved words, in the order in which they are tried.

  function SelectWords(w: string): Option<Token> {
    if w == "SELECT" then Some(SELECT)
    else if w == "FROM" then Some(FROM)
    else if w == "AS" then Some(AS)
    else if w == "CREATE" then Some(CREATE)
    else if w == "PROCEDURE" then Some(PROC)
    else if w == "INT" then Some(INT)
    else if w == "SMALLINT" then Some(SMALLINT)
    else None
  }

  function TypeWords(w: string): Option<Token> {
    if w == "BIGINT" then Some(BIGINT)
    else if w == "CHAR" then Some(CHAR)
    else if w == "WHERE" then Some(WHERE)
    else if w == "AND" then Some(AND)
    else if w == "OR" then Some(OR)
    else if w == "INNER" then Some(INNER)
    else if w == "JOIN" then Some(JOIN)
    else None
  }

  function JoinWords(w: string): Option<Token> {
    if w == "LEFT" then Some(LEFT)
    else if w == "RIGHT" then Some(RIGHT)
    else if w == "ON" then Some(ON)
    else if w == "INSERT" then Some(INSERT)
    else if w == "INTO" then Some(INTO)
    else if w == "VALUES" then Some(VALUES)
    else if w == "UPDATE" then Some(UPDATE)
    else None
  }

  function OrderWords(w: string): Option<Token> {
    if w == "SET" then Some(SET)
    else if w == "ORDER" then Some(ORDER)
    else if w == "BY" then Some(BY)
    else if w == "DESC" then Some(DESC)
    else if w == "ASC" then Some(ASC)
    else if w == "IN" then Some(IN)
    else if w == "DELETE" then Some(DELETE)
    else None
  }

  function GroupWords(w: string): Option<Token> {
    if w == "GROUP" then Some(GROUP)
    else if w == "HAVING" then Some(HAVING)
    else if w == "LIKE" then Some(LIKE)
    else if w == "IS" then Some(IS)
    else if w == "NULL" then Some(NULL)
    else if w == "NOT" then Some(NOT)
    else if w == "UNION" then Some(UNION)
    else None
  }

  function CaseWords(w: string): Option<Token> {
    if w == "CASE" then Some(CASE)
    else if w == "WHEN" then Some(WHEN)
    else if w == "THEN" then Some(THEN)
    else if w == "ELSE" then Some(ELSE)
    else if w == "END" then Some(END)
    else if w == "DISTINCT" then Some(DISTINCT)
    else None
  }

  /** The token a word in capitals is reserved for. */
  function Keyword(w: string): Option<Token> {
    SelectWords(w).Else(TypeWords(w)).Else(JoinWords(w)).Else(OrderWords(w)).Else(GroupWords(w)).Else(CaseWords(w))
  }

  /** One reading of the tokenizer: its verdict, the token and its text, and the
      position after it. */
  datatype Reading = Reading(ok: bool, token: Token, text: string, pos: nat)

  /** A keyword, a variable, a lone '=', or a name; only a name looks past the
      white space that follows, to tell a function from a field. */
  function WordReading(src: string, start: nat): (r: Reading)
    requires start < |src|
    ensures start < r.pos <= |src| && r.ok && !r.token.EOS?
  {
    var end := WordEnd(src, start + 1);
    var text := src[start..end];
    if Keyword(Upper(text)).Some? then
      assert Keyword(Upper(text)).value != EOS by { KeywordNotEos(Upper(text)); }
      Reading(true, Keyword(Upper(text)).value, text, end)
    else if text[0] == '@' then Reading(true, VAR, text, end)
    else if text == "=" then Reading(true, EQ, text, end)
    else
      var past := SpaceEnd(src, end);
      Reading(true, if Peek(src, past) == '(' then FUNC else ID, text, past)
  }

  lemma KeywordNotEos(w: string)
    ensures Keyword(w) != Some(EOS)
  {
  }

  /** The tokens recognised by their first character, and words. */
  function SymbolReading(src: string, start: nat): (r: Reading)
    requires start < |src|
    ensures start < r.pos <= |src| && !r.token.EOS?
  {
    var c := src[start];
    var one := src[start..start + 1];
    if c == '\'' then
      var end := QuoteEnd(src, start + 1);
      if Peek(src, end) == '\'' then Reading(true, STRLIT, src[start + 1..end], end + 1)
      else Reading(false, STRLIT, src[start + 1..end], end)
    else if c == '(' then Reading(true, LPAR, one, start + 1)
    else if c == ')' then Reading(true, RPAR, one, start + 1)
    else if c == '.' then Reading(true, DOT, one, start + 1)
    else if c == '>' then
      if Peek(src, start + 1) == '=' then Reading(true, GTEQ, one, start + 2)
      else Reading(true, GT, one, start + 1)
    else if c == '<' then LessReading(src, start)
    else if c == '*' then Reading(true, SPLAT, one, start + 1)
    else if c == ',' then Reading(true, COMMA, one, start + 1)
    else if c == ';' then Reading(true, SEMI, one, start + 1)
    else if c == '=' && IsSpace(Peek(src, start + 1)) then Reading(true, EQ, one, start + 1)
    else WordReading(src, start)
  }

  /** The token at a character that is not white space. */
  function TokenAt(src: string, start: nat): (r: Reading)
    requires start < |src|
    ensures start < r.pos <= |src| && !r.token.EOS?
  {
    if IsDigit(src[start]) || src[start] == '-' then
      var end := DigitsEnd(src, start + 1);
      Reading(true, NUM, src[start..end], end)
    else SymbolReading(src, start)
  }

  /** What sqltokenizer reads at pos; `text` is what lexum held before. */
  function Lex(src: string, pos: nat, text: string): (r: Reading)
    requires pos <= |src|
    ensures pos <= r.pos <= |src|
    ensures !r.token.EOS? ==> pos < r.pos
    ensures r.token.EOS? ==> r.ok && r.pos == |src|
  {
    var start := SpaceEnd(src, pos);
    if start >= |src| then Reading(true, EOS, text, start) else TokenAt(src, start)
  }

  /** '<', optionally '=', then optionally '>'; the '=' alone leaves no trace. */
  function LessReading(src: string, start: nat): (r: Reading)
    requires start < |src| && src[start] == '<'
    ensures start < r.pos <= |src| && r.ok && r.token in {LT, NEQ}
  {
    var next := if Peek(src, start + 1) == '=' then start + 2 else start + 1;
    if Peek(src, next) == '>' then Reading(true, NEQ, "<", next + 1)
    else Reading(true, LT, "<", next)
  }

  /** No text is ever read as TOK_LTEQ: "<=" comes out as TOK_LT. */
  lemma NeverLtEq(src: string, pos: nat, text: string)
    requires pos <= |src|
    ensures !Lex(src, pos, text).token.LTEQ?
  {
    hide Keyword, Upper;
    var start := SpaceEnd(src, pos);
    if start < |src| {
      KeywordNotLtEq(Upper(src[start..WordEnd(src, start + 1)]));
    }
  }

  lemma KeywordNotLtEq(w: string)
    ensures Keyword(w) != Some(LTEQ)
  {
  }

  // ---------------------------------------------------------------- line accounting

  lemma {:induction false} NoNewlines(s: string)
    requires forall i :: 0 <= i < |s| ==> s[i] != '\n'
    ensures Newlines(s) == 0
  {
    if s != "" {
      NoNewlines(s[..|s| - 1]);
    }
  }

  /** Splitting the consumed text. */
  lemma NewlinesSplit(src: string, a: nat, b: nat, c: nat)
    requires a <= b <= c <= |src|
    ensures Newlines(src[a..c]) == Newlines(src[a..b]) + Newlines(src[b..c])
  {
    NewlinesConcat(src[a..b], src[b..c]);
    assert src[a..c] == src[a..b] + src[b..c];
  }

  // ---------------------------------------------------------------- counting tokens

  /** The tokens that parseSelect may begin with: SELECT, or UNION and what follows. */
  predicate Head(t: Token) {
    t.SELECT? || t.UNION?
  }

  /** The tokens whose '(' belongs to them and opens no condition. */
  predicate Callee(t: Token) {
    t.FUNC? || t.IN? || t.VALUES? || t.CHAR?
  }

  /** How many SELECT and UNION tokens there are from the token in hand on. */
  function Heads(src: string, token: Token, pos: nat): nat
    requires pos <= |src|
    decreases |src| - pos, !token.EOS?
  {
    if token.EOS? then 0
    else
      var r := Lex(src, pos, "");
      (if Head(token) then 1 else 0) + Heads(src, r.token, r.pos)
  }

  /** How many '(' follow the token in hand that can open a condition. */
  function Opens(src: string, token: Token, pos: nat): nat
    requires pos <= |src|
    decreases |src| - pos, !token.EOS?
  {
    if token.EOS? then 0
    else
      var r := Lex(src, pos, "");
      (if r.token.LPAR? && !Callee(token) then 1 else 0) + Opens(src, r.token, r.pos)
  }

  /** What lexum held before matters only at the end of the text. */
  lemma LexText(src: string, pos: nat, text: string)
    requires pos <= |src|
    ensures Lex(src, pos, text).token == Lex(src, pos, "").token
    ensures Lex(src, pos, text).pos == Lex(src, pos, "").pos
  {
  }
}
