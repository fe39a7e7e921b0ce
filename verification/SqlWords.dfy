/**
  Texts given word by word: the tokenizer reads the words back.
 */
module SqlWords {

  import opened Common
  import opened SqlLex
  import opened SqlChain
  import opened SqlStatement

  /** The words, a blank behind each. */
  function Line(ws: seq<string>): string {
    if ws == [] then "" else Line(ws[..|ws| - 1]) + (ws[|ws| - 1] + " ")
  }

  predicate WordTail(w: string) {
    forall i :: 0 < i < |w| ==> IsWord(w[i])
  }

  /** The signs of one character. */
  function Sign(c: char): Option<Token> {
    match c
    case '(' => Some(LPAR)
    case ')' => Some(RPAR)
    case '.' => Some(DOT)
    case '*' => Some(SPLAT)
    case ',' => Some(COMMA)
    case ';' => Some(SEMI)
    case '=' => Some(EQ)
    case '>' => Some(GT)
    case '<' => Some(LT)
    case _ => None
  }

  /** The characters a number begins with. */
  predicate Numeric(c: char) {
    IsDigit(c) || c == '-'
  }

  /** The token of a word: a keyword, a variable, a name, a number or a sign. */
  function TokenOf(w: string): Option<Token> {
    if w == "" then None
    else if Numeric(w[0]) then if forall i :: 0 < i < |w| ==> IsDigit(w[i]) then Some(NUM) else None
    else if IsAlpha(w[0]) then
      if !WordTail(w) then None else if Keyword(Upper(w)).Some? then Keyword(Upper(w)) else Some(ID)
    else if w[0] == '@' then if WordTail(w) && Keyword(Upper(w)).None? then Some(VAR) else None
    else if |w| == 1 then Sign(w[0])
    else None
  }

  predicate AllWords(ws: seq<string>) {
    forall k :: 0 <= k < |ws| ==> TokenOf(ws[k]).Some?
  }

  // ---------------------------------------------------------------- a word in its place

  /** Word w and a blank stand at `start`. */
  predicate Stands(src: string, start: nat, w: string) {
    start + |w| < |src| && src[start..start + |w|] == w && src[start + |w|] == ' '
  }

  lemma StandsAt(src: string, start: nat, w: string, i: nat)
    requires Stands(src, start, w) && i < |w|
    ensures src[start + i] == w[i]
  {
    assert src[start..start + |w|][i] == src[start + i];
  }

  lemma {:induction false} WordEndAt(src: string, i: nat, e: nat)
    requires i <= e < |src| && !IsWord(src[e]) && forall j :: i <= j < e ==> IsWord(src[j])
    ensures WordEnd(src, i) == e
    decreases e - i
  {
    if i < e {
      WordEndAt(src, i + 1, e);
    }
  }

  lemma {:induction false} DigitsEndAt(src: string, i: nat, e: nat)
    requires i <= e < |src| && !IsDigit(src[e]) && forall j :: i <= j < e ==> IsDigit(src[j])
    ensures DigitsEnd(src, i) == e
    decreases e - i
  {
    if i < e {
      DigitsEndAt(src, i + 1, e);
    }
  }

  /** Behind the word a name is told from a function. */
  function InPlace(src: string, start: nat, w: string): Reading
    requires start + |w| <= |src|
  {
    var past := SpaceEnd(src, start + |w|);
    if TokenOf(w) == Some(ID) then Reading(true, if Peek(src, past) == '(' then FUNC else ID, w, past)
    else Reading(true, TokenOf(w).GetOr(EOS), w, start + |w|)
  }

  lemma LetterStands(src: string, start: nat, w: string)
    requires Stands(src, start, w) && w != "" && WordTail(w) && (IsAlpha(w[0]) || w[0] == '@') && TokenOf(w).Some?
    ensures TokenAt(src, start) == InPlace(src, start, w)
  {
    hide Keyword, Upper;
    StandsAt(src, start, w, 0);
    forall j | start + 1 <= j < start + |w|
      ensures IsWord(src[j])
    {
      StandsAt(src, start, w, j - start);
    }
    WordEndAt(src, start + 1, start + |w|);
    if Keyword(Upper(w)).Some? {
      KeywordNotId(Upper(w));
    }
  }

  lemma KeywordNotId(w: string)
    ensures Keyword(w) != Some(ID)
  {
  }

  lemma DigitStands(src: string, start: nat, w: string)
    requires Stands(src, start, w) && w != "" && Numeric(w[0]) && TokenOf(w).Some?
    ensures TokenAt(src, start) == InPlace(src, start, w)
  {
    hide Keyword, Upper, SymbolReading;
    StandsAt(src, start, w, 0);
    forall j | start + 1 <= j < start + |w|
      ensures IsDigit(src[j])
    {
      StandsAt(src, start, w, j - start);
    }
    DigitsEndAt(src, start + 1, start + |w|);
  }

  lemma SignStands(src: string, start: nat, w: string)
    requires Stands(src, start, w) && |w| == 1 && Sign(w[0]).Some?
    ensures TokenAt(src, start) == Reading(true, Sign(w[0]).value, w, start + 1)
  {
    hide WordReading;
    StandsAt(src, start, w, 0);
  }

  lemma WordStands(src: string, start: nat, w: string)
    requires Stands(src, start, w) && TokenOf(w).Some?
    ensures TokenAt(src, start) == InPlace(src, start, w) && !IsSpace(src[start])
  {
    hide Keyword, Upper, TokenAt, WordTail;
    StandsAt(src, start, w, 0);
    if Numeric(w[0]) {
      DigitStands(src, start, w);
    } else if IsAlpha(w[0]) || w[0] == '@' {
      LetterStands(src, start, w);
    } else {
      SignStands(src, start, w);
    }
  }

  // ---------------------------------------------------------------- a line

  function StartOf(ws: seq<string>, k: nat): nat
    requires k <= |ws|
  {
    |Line(ws[..k])|
  }

  lemma {:induction false} LinePrefix(ws: seq<string>, k: nat)
    requires k <= |ws|
    ensures Line(ws[..k]) <= Line(ws)
  {
    if k < |ws| {
      LinePrefix(ws[..|ws| - 1], k);
      assert ws[..|ws| - 1][..k] == ws[..k];
    } else {
      assert ws[..k] == ws;
    }
  }

  lemma WordInLine(ws: seq<string>, k: nat)
    requires k < |ws|
    ensures Stands(Line(ws), StartOf(ws, k), ws[k])
    ensures StartOf(ws, k + 1) == StartOf(ws, k) + |ws[k]| + 1
  {
    LinePrefix(ws, k + 1);
    assert ws[..k + 1][..k] == ws[..k];
    var a, b := Line(ws[..k]), ws[k] + " ";
    assert Line(ws[..k + 1]) == a + b;
    assert (a + b)[|a|..|a| + |ws[k]|] == ws[k];
  }

  /** The token of word k where it stands. */
  function TokenIn(ws: seq<string>, k: nat): Token
    requires k < |ws|
  {
    if TokenOf(ws[k]) == Some(ID) && k + 1 < |ws| && ws[k + 1] != "" && ws[k + 1][0] == '(' then FUNC
    else TokenOf(ws[k]).GetOr(EOS)
  }

  /** The cursor with word k in hand; behind the last word, the end of the text. */
  function CursorOf(ws: seq<string>, k: nat): Cursor
    requires k <= |ws| && ws != []
  {
    if k == |ws| then Cursor(EOS, ws[k - 1], |Line(ws)|)
    else Cursor(TokenIn(ws, k), ws[k], if TokenOf(ws[k]) == Some(ID) then StartOf(ws, k + 1)
      else StartOf(ws, k) + |ws[k]|)
  }

  /** From a blank, or from a word, the white space ends where word k begins. */
  lemma SpaceBefore(ws: seq<string>, k: nat, pos: nat)
    requires AllWords(ws) && k <= |ws| && pos <= StartOf(ws, k) <= pos + 1
    requires pos < StartOf(ws, k) ==> pos < |Line(ws)| && Line(ws)[pos] == ' '
    ensures StartOf(ws, k) <= |Line(ws)| && SpaceEnd(Line(ws), pos) == StartOf(ws, k)
    ensures k == |ws| ==> StartOf(ws, k) == |Line(ws)|
  {
    hide TokenOf, Line;
    LinePrefix(ws, k);
    if k < |ws| {
      WordInLine(ws, k);
      WordStands(Line(ws), StartOf(ws, k), ws[k]);
    } else {
      assert ws[..k] == ws;
    }

  }

  /** What stands behind a name is the first character of the next word. */
  lemma PeekNext(ws: seq<string>, k: nat)
    requires AllWords(ws) && k < |ws|
    ensures StartOf(ws, k + 1) <= |Line(ws)|
    ensures Peek(Line(ws), StartOf(ws, k + 1)) == '(' <==> k + 1 < |ws| && ws[k + 1] != "" && ws[k + 1][0] == '('
  {
    hide TokenOf, Line;
    LinePrefix(ws, k + 1);
    if k + 1 < |ws| {
      WordInLine(ws, k + 1);
      assert ws[k + 1] != "" by { WordNotEmpty(ws[k + 1]); }
      StandsAt(Line(ws), StartOf(ws, k + 1), ws[k + 1], 0);
    } else {
      assert ws[..k + 1] == ws;
    }
  }

  lemma WordNotEmpty(w: string)
    requires TokenOf(w).Some?
    ensures w != ""
  {
  }

  /** From the white space in front of it, word k is read. */
  lemma ReadsWord(ws: seq<string>, k: nat, pos: nat, text: string)
    requires AllWords(ws) && k < |ws| && pos <= StartOf(ws, k) <= pos + 1
    requires pos < StartOf(ws, k) ==> pos < |Line(ws)| && Line(ws)[pos] == ' '
    ensures NextOk(Line(ws), Cursor(SEMI, text, pos))
              && NextCursor(Line(ws), Cursor(SEMI, text, pos)) == CursorOf(ws, k)
  {
    hide TokenOf, Line, TokenAt, Stands;
    var start := StartOf(ws, k);
    SpaceBefore(ws, k, pos);
    WordInLine(ws, k);
    WordStands(Line(ws), start, ws[k]);
    PeekNext(ws, k);
    BlankBehind(ws, k);
    SpaceBefore(ws, k + 1, start + |ws[k]|);
  }

  lemma BlankBehind(ws: seq<string>, k: nat)
    requires k < |ws|
    ensures StartOf(ws, k) + |ws[k]| + 1 == StartOf(ws, k + 1) <= |Line(ws)|
    ensures Line(ws)[StartOf(ws, k) + |ws[k]|] == ' '
  {
    WordInLine(ws, k);
    LinePrefix(ws, k + 1);
  }

  /** The token in hand does not matter for the next one. */
  lemma TokenFree(src: string, c: Cursor)
    requires c.pos <= |src|
    ensures NextOk(src, c) == NextOk(src, c.(token := SEMI)) && NextCursor(src, c) == NextCursor(src, c.(token := SEMI))
  {
  }

  /** The tokenizer reads a line word by word, and then its end. */
  lemma LineReads(ws: seq<string>, k: nat)
    requires AllWords(ws) && k < |ws|
    ensures NextOk(Line(ws), CursorOf(ws, k)) && NextCursor(Line(ws), CursorOf(ws, k)) == CursorOf(ws, k + 1)
  {
    hide TokenOf, Line, NextOk, NextCursor;
    var c := CursorOf(ws, k);
    BlankBehind(ws, k);
    TokenFree(Line(ws), c);
    if k + 1 < |ws| {
      ReadsWord(ws, k + 1, c.pos, c.text);
    } else {
      SpaceBefore(ws, k + 1, c.pos);
      EndOfLine(Line(ws), c);
    }
  }

  lemma EndOfLine(src: string, c: Cursor)
    requires c.pos <= |src| && SpaceEnd(src, c.pos) == |src|
    ensures NextOk(src, c) && NextCursor(src, c) == Cursor(EOS, c.text, |src|)
  {
  }

  lemma LineBegins(ws: seq<string>)
    requires AllWords(ws) && ws != []
    ensures NextOk(Line(ws), INITIAL) && NextCursor(Line(ws), INITIAL) == CursorOf(ws, 0)
  {
    hide TokenOf, NextOk, NextCursor;
    assert ws[..0] == [];
    ReadsWord(ws, 0, 0, "");
  }

  // ---------------------------------------------------------------- the cursors of a line

  /** Each cursor is where the tokenizer gets from the one before. */
  predicate Reads(src: string, cs: seq<Cursor>) {
    forall k :: 0 <= k < |cs| - 1 ==> NextOk(src, cs[k]) && NextCursor(src, cs[k]) == cs[k + 1]
  }

  function CursorsOf(ws: seq<string>): seq<Cursor>
    requires ws != []
  {
    seq(|ws| + 1, k requires 0 <= k <= |ws| => CursorOf(ws, k))
  }

  /** The cursors have the tokens and texts listed. */
  predicate Listed(cs: seq<Cursor>, ws: seq<string>, ts: seq<Token>) {
    && |cs| == |ws| + 1 == |ts| + 1 && cs[|ws|].token.EOS?
    && forall k :: 0 <= k < |ws| ==> cs[k].token == ts[k] && cs[k].text == ws[k]
  }

  lemma LineCursors(ws: seq<string>, tokens: seq<Token>)
    requires ws != [] && |tokens| == |ws|
    requires forall k :: 0 <= k < |ws| ==> TokenOf(ws[k]) == Some(tokens[k])
    requires forall k :: 0 <= k < |ws| - 1 && tokens[k] == ID ==> ws[k + 1] != "" && ws[k + 1][0] != '('
    ensures var cs := CursorsOf(ws);
            && Reads(Line(ws), cs) && NextOk(Line(ws), INITIAL) && NextCursor(Line(ws), INITIAL) == cs[0]
            && Listed(cs, ws, tokens)
  {
    hide TokenOf, NextOk, NextCursor, Line, StartOf;
    var cs := CursorsOf(ws);
    LineBegins(ws);
    forall k | 0 <= k < |ws|
      ensures NextOk(Line(ws), cs[k]) && NextCursor(Line(ws), cs[k]) == cs[k + 1]
      ensures cs[k].token == tokens[k] && cs[k].text == ws[k]
    {
      LineReads(ws, k);
    }
  }
}
