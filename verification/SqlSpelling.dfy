/**
  How tokens are spelled: what the tokenizer reads, in terms of the characters of the
  source text.
 */
module SqlSpelling {

  import opened Common
  import opened SqlLex
  import opened SqlChain

  // ---------------------------------------------------------------- reserved words

  /** The word of a reserved token, in capitals; "" for the others. */
  function Spelling(t: Token): string {
    match t
    case CREATE => "CREATE"
    case PROC => "PROCEDURE"
    case AS => "AS"
    case SELECT => "SELECT"
    case FROM => "FROM"
    case INT => "INT"
    case SMALLINT => "SMALLINT"
    case BIGINT => "BIGINT"
    case CHAR => "CHAR"
    case WHERE => "WHERE"
    case AND => "AND"
    case OR => "OR"
    case INNER => "INNER"
    case JOIN => "JOIN"
    case RIGHT => "RIGHT"
    case LEFT => "LEFT"
    case ON => "ON"
    case INSERT => "INSERT"
    case INTO => "INTO"
    case VALUES => "VALUES"
    case UPDATE => "UPDATE"
    case SET => "SET"
    case ORDER => "ORDER"
    case BY => "BY"
    case DESC => "DESC"
    case ASC => "ASC"
    case IN => "IN"
    case DELETE => "DELETE"
    case GROUP => "GROUP"
    case HAVING => "HAVING"
    case LIKE => "LIKE"
    case IS => "IS"
    case NULL => "NULL"
    case NOT => "NOT"
    case UNION => "UNION"
    case CASE => "CASE"
    case WHEN => "WHEN"
    case THEN => "THEN"
    case ELSE => "ELSE"
    case END => "END"
    case DISTINCT => "DISTINCT"
    case _ => ""
  }

  lemma SelectWordSpelled(w: string)
    ensures SelectWords(w).Some? ==> w == Spelling(SelectWords(w).value) != ""
  {
  }

  lemma TypeWordSpelled(w: string)
    ensures TypeWords(w).Some? ==> w == Spelling(TypeWords(w).value) != ""
  {
  }

  lemma JoinWordSpelled(w: string)
    ensures JoinWords(w).Some? ==> w == Spelling(JoinWords(w).value) != ""
  {
  }

  lemma OrderWordSpelled(w: string)
    ensures OrderWords(w).Some? ==> w == Spelling(OrderWords(w).value) != ""
  {
  }

  lemma GroupWordSpelled(w: string)
    ensures GroupWords(w).Some? ==> w == Spelling(GroupWords(w).value) != ""
  {
  }

  lemma CaseWordSpelled(w: string)
    ensures CaseWords(w).Some? ==> w == Spelling(CaseWords(w).value) != ""
  {
  }

  lemma KeywordSpelled(w: string)
    requires Keyword(w).Some?
    ensures w == Spelling(Keyword(w).value) != ""
  {
    hide Spelling, SelectWords, TypeWords, JoinWords, OrderWords, GroupWords, CaseWords;
    SelectWordSpelled(w);
    TypeWordSpelled(w);
    JoinWordSpelled(w);
    OrderWordSpelled(w);
    GroupWordSpelled(w);
    CaseWordSpelled(w);
  }

  lemma SelectWordsRead()
    ensures SelectWords("SELECT").Some? && SelectWords("FROM").Some? && SelectWords("AS").Some?
    ensures SelectWords("CREATE").Some? && SelectWords("PROCEDURE").Some? && SelectWords("INT").Some?
    ensures SelectWords("SMALLINT").Some?
  {
  }

  lemma TypeWordsRead()
    ensures TypeWords("BIGINT").Some? && TypeWords("CHAR").Some? && TypeWords("WHERE").Some?
    ensures TypeWords("AND").Some? && TypeWords("OR").Some? && TypeWords("INNER").Some?
    ensures TypeWords("JOIN").Some?
  {
  }

  lemma JoinWordsRead()
    ensures JoinWords("LEFT").Some? && JoinWords("RIGHT").Some? && JoinWords("ON").Some?
    ensures JoinWords("INSERT").Some? && JoinWords("INTO").Some? && JoinWords("VALUES").Some?
    ensures JoinWords("UPDATE").Some?
  {
  }

  lemma OrderWordsRead()
    ensures OrderWords("SET").Some? && OrderWords("ORDER").Some? && OrderWords("BY").Some?
    ensures OrderWords("DESC").Some? && OrderWords("ASC").Some? && OrderWords("IN").Some?
    ensures OrderWords("DELETE").Some?
  {
  }

  lemma GroupWordsRead()
    ensures GroupWords("GROUP").Some? && GroupWords("HAVING").Some? && GroupWords("LIKE").Some?
    ensures GroupWords("IS").Some? && GroupWords("NULL").Some? && GroupWords("NOT").Some?
    ensures GroupWords("UNION").Some?
  {
  }

  lemma CaseWordsRead()
    ensures CaseWords("CASE").Some? && CaseWords("WHEN").Some? && CaseWords("THEN").Some?
    ensures CaseWords("ELSE").Some? && CaseWords("END").Some? && CaseWords("DISTINCT").Some?
  {
  }

  /** Every word of the table is reserved. */
  lemma SpellingReserved(t: Token)
    requires Spelling(t) != ""
    ensures Keyword(Spelling(t)).Some?
  {
    hide SelectWords, TypeWords, JoinWords, OrderWords, GroupWords, CaseWords;
    SelectWordsRead();
    TypeWordsRead();
    JoinWordsRead();
    OrderWordsRead();
    GroupWordsRead();
    CaseWordsRead();
  }

  /** The reserved words are those of the table, each for a token it spells. */
  lemma Reserved(w: string)
    ensures Keyword(w).Some? <==> exists t :: w == Spelling(t) != ""
    ensures Keyword(w).Some? ==> w == Spelling(Keyword(w).value) != ""
  {
    hide Keyword, Spelling;
    if Keyword(w).Some? {
      KeywordSpelled(w);
    }
    if t :| w == Spelling(t) != "" {
      SpellingReserved(t);
    }
  }

  // ---------------------------------------------------------------- characters

  predicate Digit(c: char) {
    '0' <= c <= '9'
  }

  predicate Blank(c: char) {
    c in {' ', '\t', '\n', '\U{0B}', '\U{0C}', '\r'}
  }

  /** What a name goes on with. */
  predicate NameChar(c: char) {
    'a' <= c <= 'z' || 'A' <= c <= 'Z' || '0' <= c <= '9' || c == '_'
  }

  /** Digits from a to b, and none there. */
  predicate Digits(src: string, a: nat, b: nat) {
    a <= b <= |src| && (forall i :: a <= i < b ==> Digit(src[i])) && (b < |src| ==> !Digit(src[b]))
  }

  predicate Blanks(src: string, a: nat, b: nat) {
    a <= b <= |src| && (forall i :: a <= i < b ==> Blank(src[i])) && (b < |src| ==> !Blank(src[b]))
  }

  predicate NameChars(src: string, a: nat, b: nat) {
    a <= b <= |src| && (forall i :: a <= i < b ==> NameChar(src[i])) && (b < |src| ==> !NameChar(src[b]))
  }

  /** The character c stands at i. */
  predicate At(src: string, i: nat, c: char) {
    i < |src| && src[i] == c
  }

  /** w is s in capitals. */
  predicate Capitals(s: string, w: string) {
    && |w| == |s|
    && forall i :: 0 <= i < |s| ==>
         w[i] as int == s[i] as int - if 'a' <= s[i] <= 'z' then 'a' as int - 'A' as int else 0
  }

  // ---------------------------------------------------------------- tokens

  /** A number: a digit or '-' and the digits behind it, all of them in its text. */
  predicate NumberSpelled(src: string, start: nat, r: Reading) {
    r.ok && Digits(src, start + 1, r.pos) && r.text == src[start..r.pos]
  }

  /** A literal: what stands between two quotes of one line; else the tokenizer fails where
      the line ends. */
  predicate QuoteSpelled(src: string, start: nat, r: Reading) {
    && r.pos <= |src| && start + 1 + |r.text| <= |src| && r.text == src[start + 1..start + 1 + |r.text|]
    && '\'' !in r.text && '\n' !in r.text
    && if r.ok then At(src, start + 1 + |r.text|, '\'') && r.pos == start + |r.text| + 2
       else r.pos == start + 1 + |r.text| && (r.pos == |src| || src[r.pos] == '\n')
  }

  /** The tokens of one or more signs, and the position behind them. */
  predicate SignSpelled(src: string, start: nat, r: Reading)
    requires start < |src|
  {
    && r.ok
    && r.pos == start + (if src[start] in {'<', '>'} && At(src, start + 1, '=') then 2 else 1)
                      + (if r.token.NEQ? then 1 else 0)
  }

  function SignToken(src: string, start: nat): Option<Token>
    requires start < |src|
  {
    match src[start]
    case '(' => Some(LPAR)
    case ')' => Some(RPAR)
    case '.' => Some(DOT)
    case '*' => Some(SPLAT)
    case ',' => Some(COMMA)
    case ';' => Some(SEMI)
    case '>' => Some(if At(src, start + 1, '=') then GTEQ else GT)
    case '<' =>
      Some(if At(src, if At(src, start + 1, '=') then start + 2 else start + 1, '>') then NEQ else LT)
    case '=' => if start + 1 < |src| && NameChar(src[start + 1]) then None else Some(EQ)
    case _ => None
  }

  /** A word: a character and the name characters behind it, all of them in its text; a
      reserved one in any case, a variable, or a name, behind which the blanks are read and
      a '(' makes it a function. */
  predicate WordSpelled(src: string, start: nat, r: Reading) {
    var end := start + |r.text|;
    && r.ok && NameChars(src, start + 1, end) && r.text == src[start..end]
    && if Spelling(r.token) != "" then Capitals(r.text, Spelling(r.token)) && r.pos == end
       else
         && (forall t :: Spelling(t) != "" ==> !Capitals(r.text, Spelling(t)))
         && if At(src, start, '@') then r.token.VAR? && r.pos == end
            else Blanks(src, end, r.pos) && r.token == if At(src, r.pos, '(') then FUNC else ID
  }

  /** What stands at `start` is read like this. */
  predicate TokenSpelled(src: string, start: nat, r: Reading)
    requires start < |src|
  {
    if Digit(src[start]) || src[start] == '-' then r.token.NUM? && NumberSpelled(src, start, r)
    else if src[start] == '\'' then r.token.STRLIT? && QuoteSpelled(src, start, r)
    else if SignToken(src, start).Some? then r.token == SignToken(src, start).value && SignSpelled(src, start, r)
    else WordSpelled(src, start, r)
  }

  lemma NumberRead(src: string, start: nat)
    requires start < |src| && (IsDigit(src[start]) || src[start] == '-')
    ensures TokenSpelled(src, start, TokenAt(src, start))
  {
    hide SymbolReading;
  }

  lemma QuoteRead(src: string, start: nat)
    requires start < |src| && src[start] == '\''
    ensures TokenSpelled(src, start, TokenAt(src, start))
  {
    hide WordReading;
  }

  lemma SignRead(src: string, start: nat)
    requires start < |src| && src[start] != '\'' && SignToken(src, start).Some?
    ensures TokenSpelled(src, start, TokenAt(src, start))
  {
    hide Spelling, Keyword, Upper;
    if src[start] == '=' {
      EqualsNotReserved(src[start..start + 1]);
    }
  }

  lemma EqualsNotReserved(w: string)
    requires w == "="
    ensures Keyword(Upper(w)).None?
  {
  }

  lemma CapitalsUpper(s: string, w: string)
    ensures Capitals(s, w) <==> w == Upper(s)
  {
    if Capitals(s, w) {
      assert forall i :: 0 <= i < |s| ==> w[i] as int == Upper(s)[i] as int;
      assert forall i :: 0 <= i < |s| ==> w[i] == Upper(s)[i];
    }
  }

  /** A word is reserved when its capitals spell a token, and then for a token they spell. */
  lemma WordReserved(s: string)
    ensures forall t :: Spelling(t) != "" && Capitals(s, Spelling(t)) ==> Keyword(Upper(s)).Some?
    ensures Keyword(Upper(s)).Some? ==>
              var t := Keyword(Upper(s)).value; Spelling(t) != "" && Capitals(s, Spelling(t))
  {
    hide Keyword, Spelling, Upper, Capitals;
    Reserved(Upper(s));
    forall t | Spelling(t) != "" && Capitals(s, Spelling(t))
      ensures Keyword(Upper(s)).Some?
    {
      CapitalsUpper(s, Spelling(t));
      SpellingReserved(t);
    }
    if Keyword(Upper(s)).Some? {
      CapitalsUpper(s, Spelling(Keyword(Upper(s)).value));
    }
  }

  lemma NamesNotReserved()
    ensures Spelling(VAR) == Spelling(ID) == Spelling(FUNC) == Spelling(EQ) == ""
  {
  }

  lemma WordRead(src: string, start: nat)
    requires start < |src| && !(Digit(src[start]) || src[start] == '-' || src[start] == '\'')
    requires SignToken(src, start).None?
    ensures TokenSpelled(src, start, TokenAt(src, start))
  {
    hide Spelling, Keyword, Upper, Capitals;
    var text := src[start..WordEnd(src, start + 1)];
    NamesNotReserved();
    WordReserved(text);
  }

  lemma TokenRead(src: string, start: nat)
    requires start < |src| && !Blank(src[start])
    ensures TokenSpelled(src, start, TokenAt(src, start))
  {
    hide Spelling, Keyword, TokenAt, TokenSpelled;
    if IsDigit(src[start]) || src[start] == '-' {
      NumberRead(src, start);
    } else if src[start] == '\'' {
      QuoteRead(src, start);
    } else if SignToken(src, start).Some? {
      SignRead(src, start);
    } else {
      WordRead(src, start);
    }
  }

  /** The tokenizer skips the blanks and reads what stands there; at the end of the text it
      leaves the text of the last token alone. */
  lemma LexSpelled(src: string, pos: nat, text: string) returns (start: nat)
    requires pos <= |src|
    ensures Blanks(src, pos, start)
    ensures var r := Lex(src, pos, text);
            if start < |src| then TokenSpelled(src, start, r) else r == Reading(true, EOS, text, |src|)
  {
    hide Spelling, Keyword, TokenAt, TokenSpelled;
    start := SpaceEnd(src, pos);
    if start < |src| {
      TokenRead(src, start);
    }
  }

  // ---------------------------------------------------------------- operators

  /** The text of a comparison without its blanks: what the source has, in capitals, but
      for the '=' behind '<'. */
  predicate OperatorSpelled(source: string, written: string) {
    && |written| > 2 && written[0] == ' ' == written[|written| - 1]
    && Capitals(if At(source, 0, '<') && At(source, 1, '=') then "<" + source[2..] else source,
                written[1..|written| - 1])
  }

  lemma Slices(s: string, a: nat, b: nat)
    requires a <= b <= |s|
    ensures b - a == 1 ==> s[a..b] == [s[a]]
    ensures b - a == 2 ==> s[a..b] == [s[a], s[a + 1]]
    ensures b - a == 3 ==> s[a..b] == [s[a], s[a + 1], s[a + 2]]
  {
  }

  lemma SignOperator(src: string, start: nat)
    requires start < |src| && SignToken(src, start).Some? && Operator(TokenAt(src, start).token)
    ensures var r := TokenAt(src, start);
            r.pos <= |src| && start <= r.pos && OperatorText(r.token).Some?
              && OperatorSpelled(src[start..r.pos], OperatorText(r.token).value)
  {
    hide Spelling, Keyword, TokenAt;
    SignRead(src, start);
    var r := TokenAt(src, start);
    Slices(src, start, r.pos);
  }

  lemma Padded(source: string, w: string)
    requires Capitals(source, w) && w != "" && !At(source, 0, '<')
    ensures OperatorSpelled(source, " " + w + " ")
  {
    assert (" " + w + " ")[1..|w| + 1] == w;
  }

  lemma WordOperator(src: string, start: nat, r: Reading)
    requires start < |src| && WordSpelled(src, start, r) && SignToken(src, start).None? && Operator(r.token)
    ensures start <= r.pos <= |src| && OperatorText(r.token).Some?
    ensures OperatorSpelled(src[start..r.pos], OperatorText(r.token).value)
  {
    hide OperatorSpelled, Capitals;
    assert r.token.LIKE? || r.token.IS?;
    assert src[start] != '<' && src[start..r.pos][0] == src[start];
    var w := if r.token.LIKE? then "LIKE" else "IS";
    assert " " + w + " " == if r.token.LIKE? then " LIKE " else " IS ";
    Padded(src[start..r.pos], w);
  }

  /** A comparison is written as the source has it, except that "<=" becomes "<" and
      "<=>" becomes "<>". */
  lemma OperatorWritten(src: string, start: nat)
    requires start < |src| && !Blank(src[start]) && Operator(TokenAt(src, start).token)
    ensures var r := TokenAt(src, start);
            r.pos <= |src| && start <= r.pos && OperatorText(r.token).Some?
              && OperatorSpelled(src[start..r.pos], OperatorText(r.token).value)
  {
    hide Keyword, TokenAt, WordSpelled, Spelling;
    TokenRead(src, start);
    if SignToken(src, start).Some? && src[start] != '\'' {
      SignOperator(src, start);
    } else {
      WordOperator(src, start, TokenAt(src, start));
    }
  }
}
