/**
 * The lexer of AnuragLang (ang_modules/lexer.py).
 *
 * `tokenize` walks the source text once. At each position it tries the
 * patterns of an ordered table and takes the FIRST one that matches (not the
 * longest), emits `(kind, text, line, column)` unless the match is whitespace,
 * skips a `#` comment when no pattern matches, and fails on any other
 * character. The regular expressions of the table are written out here as
 * ASCII matchers that return the length of their match at a position.
 */
module Lexing {
  import opened Wrappers

  datatype TokenKind =
    | ASSUME | PRODUCE | TAKE | INCASE | OTHERWISE | WHILE | FUNCTION | RETURN
    | NUMBER | IDENTIFIER | STRING
    | ASSIGN | LBRACE | RBRACE | LPAREN | RPAREN | LBRACKET | RBRACKET | COMMA
    | PLUS | MINUS | MULTIPLY | DIVIDE | GT | LT | EQ | SEMICOLON
    | WHITESPACE

  /** A token as the lexer emits it: kind, exact matched text, line and column. */
  datatype Token = Token(kind: TokenKind, text: string, line: int, column: int)

  /** The shapes of the regular expressions in the table. */
  datatype Pattern =
    | Verbatim(text: string)  // a keyword or punctuation, matched as written
    | Digits                  // \d+
    | Identifier              // [a-zA-Z_]\w*
    | Quoted                  // "[^"\\]*(?:\\.[^"\\]*)*"
    | Blanks                  // \s+

  /** The rows of the pattern table, each a token kind with its pattern, in order. */
  datatype Table = End | Row(kind: TokenKind, pattern: Pattern, next: Table)

  /** The pattern table, in the order in which `tokenize` tries it. */
  const TokenTypes: Table :=
    Row(ASSUME, Verbatim("assume"),
    Row(PRODUCE, Verbatim("produce"),
    Row(TAKE, Verbatim("take"),
    Row(INCASE, Verbatim("incase"),
    Row(OTHERWISE, Verbatim("otherwise"),
    Row(WHILE, Verbatim("while"),
    Row(FUNCTION, Verbatim("function"),
    Row(RETURN, Verbatim("return"),
    Row(NUMBER, Digits,
    Row(IDENTIFIER, Identifier,
    Row(STRING, Quoted,
    Row(ASSIGN, Verbatim("="),
    Row(LBRACE, Verbatim("{"),
    Row(RBRACE, Verbatim("}"),
    Row(LPAREN, Verbatim("("),
    Row(RPAREN, Verbatim(")"),
    Row(LBRACKET, Verbatim("["),
    Row(RBRACKET, Verbatim("]"),
    Row(COMMA, Verbatim(","),
    Row(PLUS, Verbatim("+"),
    Row(MINUS, Verbatim("-"),
    Row(MULTIPLY, Verbatim("*"),
    Row(DIVIDE, Verbatim("/"),
    Row(GT, Verbatim(">"),
    Row(LT, Verbatim("<"),
    Row(EQ, Verbatim("=="),
    Row(SEMICOLON, Verbatim(";"),
    Row(WHITESPACE, Blanks,
    End))))))))))))))))))))))))))))

  // The ASCII readings of the classes \d, [a-zA-Z_], \w and \s.

  predicate IsDigit(c: char) { '0' <= c <= '9' }

  predicate IsIdentStart(c: char) { 'a' <= c <= 'z' || 'A' <= c <= 'Z' || c == '_' }

  predicate IsWordChar(c: char) { IsIdentStart(c) || IsDigit(c) }

  /** The ASCII characters `str.isspace` accepts: blank, tab, the line breaks, and the separators 0x1C to 0x1F. */
  predicate IsSpace(c: char) {
    c == ' ' || c == '\t' || c == '\n' || c == '\r' || c == '\U{C}' || c == '\U{B}' || '\U{1C}' <= c <= '\U{1F}'
  }

  datatype CharClass = Digit | Alnum | Space

  predicate InClass(c: char, cls: CharClass) {
    match cls
    case Digit => IsDigit(c)
    case Alnum => IsWordChar(c)
    case Space => IsSpace(c)
  }

  /**
   * The body of a string literal, between its quotes: characters other than
   * `"` and `\`, and escapes `\` followed by any character but a newline.
   */
  predicate EscapedBody(s: string)
    decreases |s|
  {
    s == [] ||
    (s[0] != '"' && s[0] != '\\' && EscapedBody(s[1..])) ||
    (|s| >= 2 && s[0] == '\\' && s[1] != '\n' && EscapedBody(s[2..]))
  }

  /** The language of each pattern. */
  predicate InLanguage(p: Pattern, text: string) {
    match p
    case Verbatim(lit) => text == lit
    case Digits =>
      |text| > 0 && forall i :: 0 <= i < |text| ==> IsDigit(text[i])
    case Identifier =>
      |text| > 0 && IsIdentStart(text[0]) && forall i :: 1 <= i < |text| ==> IsWordChar(text[i])
    case Quoted =>
      |text| >= 2 && text[0] == '"' && text[|text| - 1] == '"' && EscapedBody(text[1..|text| - 1])
    case Blanks =>
      |text| > 0 && forall i :: 0 <= i < |text| ==> IsSpace(text[i])
  }

  /** The repeated classes are greedy: a match ending at `end` cannot be extended. */
  predicate Greedy(p: Pattern, src: string, end: nat)
    requires end <= |src|
  {
    end < |src| ==>
      match p
      case Digits => !IsDigit(src[end])
      case Identifier => !IsWordChar(src[end])
      case Blanks => !IsSpace(src[end])
      case _ => true
  }

  /**
   * `lit[k..]` occurs in `src` at `pos + k`, compared character by character;
   * `LiteralAt(src, pos, lit, 0)` says that `lit` occurs at `pos`.
   */
  predicate LiteralAt(src: string, pos: nat, lit: string, k: nat)
    requires pos <= |src| && k <= |lit|
    ensures LiteralAt(src, pos, lit, k) && k < |lit| ==> pos + |lit| <= |src|
    decreases |lit| - k
  {
    k == |lit| || (pos + k < |src| && src[pos + k] == lit[k] && LiteralAt(src, pos, lit, k + 1))
  }

  lemma {:induction false} LiteralAtSlice(src: string, pos: nat, lit: string, k: nat)
    requires pos <= |src| && k < |lit|
    ensures LiteralAt(src, pos, lit, k) <==>
      pos + |lit| <= |src| && forall j :: k <= j < |lit| ==> src[pos + j] == lit[j]
    decreases |lit| - k
  {
    if k + 1 < |lit| {
      LiteralAtSlice(src, pos, lit, k + 1);
    }
  }

  /** End of the longest run of `cls` characters starting at `i`. */
  function RunEnd(src: string, i: nat, cls: CharClass): (e: nat)
    requires i <= |src|
    ensures i <= e <= |src|
    decreases |src| - i
  {
    if i < |src| && InClass(src[i], cls) then RunEnd(src, i + 1, cls) else i
  }

  /** The run is made of `cls` characters and cannot be extended. */
  lemma {:induction false} RunEndMaximal(src: string, i: nat, cls: CharClass)
    requires i <= |src|
    ensures var e := RunEnd(src, i, cls);
      (forall j :: i <= j < e ==> InClass(src[j], cls)) && (e < |src| ==> !InClass(src[e], cls))
    decreases |src| - i
  {
    if i < |src| && InClass(src[i], cls) {
      RunEndMaximal(src, i + 1, cls);
    }
  }

  /**
   * Scans the rest of a string literal from `i` (just after the opening
   * quote) and gives the index just past the closing quote, if there is one.
   */
  function StringEnd(src: string, i: nat): (r: Option<nat>)
    requires i <= |src|
    ensures r.Some? ==> i < r.value <= |src|
    decreases |src| - i
  {
    if i == |src| then None
    else if src[i] == '"' then Some(i + 1)
    else if src[i] == '\\' then
      if i + 1 < |src| && src[i + 1] != '\n' then StringEnd(src, i + 2) else None
    else StringEnd(src, i + 1)
  }

  /** A literal ends at its first unescaped quote, and its body is properly escaped. */
  lemma {:induction false} StringEndSound(src: string, i: nat)
    requires i <= |src|
    ensures var r := StringEnd(src, i);
      r.Some? ==> src[r.value - 1] == '"' && EscapedBody(src[i..r.value - 1])
    decreases |src| - i
  {
    var r := StringEnd(src, i);
    if i < |src| && src[i] != '"' && r.Some? {
      if src[i] == '\\' {
        StringEndSound(src, i + 2);
        assert src[i..r.value - 1][2..] == src[i + 2..r.value - 1];
      } else {
        StringEndSound(src, i + 1);
        assert src[i..r.value - 1][1..] == src[i + 1..r.value - 1];
      }
    }
  }

  /** Length of the match of pattern `p` at `pos`; 0 means no match. */
  function MatchLength(p: Pattern, src: string, pos: nat): (n: nat)
    requires pos <= |src|
    ensures pos + n <= |src|
  {
    match p
    case Verbatim(lit) =>
      if |lit| > 0 && LiteralAt(src, pos, lit, 0) then |lit| else 0
    case Digits => RunEnd(src, pos, Digit) - pos
    case Identifier =>
      if pos < |src| && IsIdentStart(src[pos]) then RunEnd(src, pos + 1, Alnum) - pos else 0
    case Quoted =>
      if pos < |src| && src[pos] == '"' then
        match StringEnd(src, pos + 1)
        case Some(e) => e - pos
        case None => 0
      else 0
    case Blanks => RunEnd(src, pos, Space) - pos
  }

  /**
   * A match is a word of the pattern's language, and the repeated classes
   * take as many characters as they can.
   */
  lemma MatchLengthSound(p: Pattern, src: string, pos: nat)
    requires pos <= |src|
    ensures var n := MatchLength(p, src, pos);
      n > 0 ==> InLanguage(p, src[pos..pos + n]) && Greedy(p, src, pos + n)
  {
    match p
    case Verbatim(lit) =>
      if MatchLength(p, src, pos) > 0 {
        LiteralAtSlice(src, pos, lit, 0);
        assert src[pos..pos + |lit|] == lit;
      }
    case Quoted => QuotedSound(src, pos);
    case Digits => RunEndMaximal(src, pos, Digit);
    case Identifier => if pos < |src| { RunEndMaximal(src, pos + 1, Alnum); }
    case Blanks => RunEndMaximal(src, pos, Space);
  }

  lemma QuotedSound(src: string, pos: nat)
    requires pos <= |src|
    ensures var n := MatchLength(Quoted, src, pos);
      n > 0 ==> InLanguage(Quoted, src[pos..pos + n])
  {
    var n := MatchLength(Quoted, src, pos);
    if n > 0 {
      var e := pos + n;
      assert StringEnd(src, pos + 1) == Some(e);
      StringEndSound(src, pos + 1);
      var text := src[pos..e];
      assert text[0] == '"' && text[|text| - 1] == '"';
      assert text[1..|text| - 1] == src[pos + 1..e - 1];
    }
  }

  /** A run of `cls` characters from `i` to a non-`cls` character (or the end) is what `RunEnd` finds. */
  lemma {:induction false} RunEndExact(src: string, i: nat, e: nat, cls: CharClass)
    requires i <= e <= |src|
    requires forall j :: i <= j < e ==> InClass(src[j], cls)
    requires e < |src| ==> !InClass(src[e], cls)
    ensures RunEnd(src, i, cls) == e
    decreases e - i
  {
    if i < e {
      RunEndExact(src, i + 1, e, cls);
    }
  }

  /** A closing quote after a properly escaped body is the first unescaped quote. */
  lemma {:induction false} StringEndExact(src: string, i: nat, e: nat)
    requires i < e <= |src| && src[e - 1] == '"' && EscapedBody(src[i..e - 1])
    ensures StringEnd(src, i) == Some(e)
    decreases e - i
  {
    if i < e - 1 {
      var body := src[i..e - 1];
      if src[i] == '\\' {
        assert body[2..] == src[i + 2..e - 1];
        StringEndExact(src, i + 2, e);
      } else {
        assert body[1..] == src[i + 1..e - 1];
        StringEndExact(src, i + 1, e);
      }
    }
  }

  /**
   * The converse of `MatchLengthSound`: a non-empty word of the language at
   * `pos` that cannot be extended is exactly what the matcher returns.
   */
  lemma MatchLengthComplete(p: Pattern, src: string, pos: nat, m: nat)
    requires pos + m <= |src| && 0 < m && InLanguage(p, src[pos..pos + m]) && Greedy(p, src, pos + m)
    ensures MatchLength(p, src, pos) == m
  {
    var text := src[pos..pos + m];
    assert forall j :: pos <= j < pos + m ==> src[j] == text[j - pos];
    match p
    case Verbatim(lit) =>
      LiteralAtSlice(src, pos, lit, 0);
    case Digits => RunEndExact(src, pos, pos + m, Digit);
    case Identifier => RunEndExact(src, pos + 1, pos + m, Alnum);
    case Blanks => RunEndExact(src, pos, pos + m, Space);
    case Quoted =>
      assert text[1..m - 1] == src[pos + 1..pos + m - 1];
      StringEndExact(src, pos + 1, pos + m);
  }

  /** End of a `#` comment starting at `i`: the next newline (not consumed) or the end. */
  function CommentEnd(src: string, i: nat): (e: nat)
    requires i <= |src|
    ensures i <= e <= |src|
    ensures e < |src| ==> src[e] == '\n'
    decreases |src| - i
  {
    if i < |src| && src[i] != '\n' then CommentEnd(src, i + 1) else i
  }

  /** Nothing before the end of a comment is a newline. */
  lemma {:induction false} CommentEndSkipsNoNewline(src: string, i: nat)
    requires i <= |src|
    ensures forall j :: i <= j < CommentEnd(src, i) ==> src[j] != '\n'
    decreases |src| - i
  {
    if i < |src| && src[i] != '\n' {
      CommentEndSkipsNoNewline(src, i + 1);
    }
  }

  /** `tokenize` raises on the first character that starts no token and no comment. */
  datatype LexError = UnexpectedCharacter(ch: char, at: nat)

  /** What a scan leaves behind: the tokens emitted, and the error that stopped it, if any. */
  datatype Scanned = Scanned(tokens: seq<Token>, failure: Option<LexError>)

  function Prefixed(prefix: seq<Token>, s: Scanned): Scanned {
    Scanned(prefix + s.tokens, s.failure)
  }

  lemma PrefixedTwice(a: seq<Token>, b: seq<Token>, s: Scanned)
    ensures Prefixed(a, Prefixed(b, s)) == Prefixed(a + b, s)
  {
    assert a + (b + s.tokens) == (a + b) + s.tokens;
  }

  /**
   * The scan of `src` from `pos` against the pattern table `table` (the
   * lexer's is `TokenTypes`), with the `line` and `column` counters of
   * `tokenize`: every match moves `column` by its length (newlines included),
   * and only a comment moves `line` on and resets `column` to 1.
   */
  function Scan(table: Table, src: string, pos: nat, line: int, column: int): Scanned
    decreases |src| - pos, 1
  {
    if pos >= |src| then Scanned([], None) else ScanRows(table, src, pos, line, column, table)
  }

  /**
   * The scan at `pos` once the rows before `rows` have failed to match: the
   * first row that matches is emitted (unless it is whitespace) and the scan
   * goes on after it; when no row is left, a `#` starts a comment that is
   * skipped to the end of the line, and any other character is an error.
   */
  function ScanRows(table: Table, src: string, pos: nat, line: int, column: int, rows: Table): Scanned
    requires pos < |src|
    decreases |src| - pos, 0, rows
  {
    match rows
    case Row(kind, pattern, next) =>
      var n := MatchLength(pattern, src, pos);
      if n == 0 then ScanRows(table, src, pos, line, column, next)
      else Prefixed(Emitted(kind, src[pos..pos + n], line, column), Scan(table, src, pos + n, line, column + n))
    case End =>
      if src[pos] == '#' then Scan(table, src, CommentEnd(src, pos), line + 1, 1)
      else Scanned([], Some(UnexpectedCharacter(src[pos], pos)))
  }

  /** The tokens a match of `kind` over `text` emits: none for whitespace. */
  function Emitted(kind: TokenKind, text: string, line: int, column: int): (r: seq<Token>)
    ensures |r| <= 1 && (r == [] <==> kind == WHITESPACE)
  {
    if kind == WHITESPACE then [] else [Token(kind, text, line, column)]
  }

  // The first-match rule, stated apart from the scan.

  /** The kind and length of the first row of `rows` that matches at `pos`: the `for` loop of `tokenize`. */
  function FirstMatch(rows: Table, src: string, pos: nat): (r: Option<(TokenKind, nat)>)
    requires pos <= |src|
    ensures r.Some? ==> 0 < r.value.1 && pos + r.value.1 <= |src|
  {
    match rows
    case End => None
    case Row(kind, p, next) =>
      var n := MatchLength(p, src, pos);
      if n > 0 then Some((kind, n)) else FirstMatch(next, src, pos)
  }

  /** What one step of the scan over `table` does with the outcome `m` of the table at `pos`. */
  function Step(table: Table, src: string, pos: nat, line: int, column: int, m: Option<(TokenKind, nat)>): Scanned
    requires pos < |src| && (m.Some? ==> 0 < m.value.1 && pos + m.value.1 <= |src|)
  {
    if m.Some? then
      var n := m.value.1;
      Prefixed(Emitted(m.value.0, src[pos..pos + n], line, column), Scan(table, src, pos + n, line, column + n))
    else if src[pos] == '#' then Scan(table, src, CommentEnd(src, pos), line + 1, 1)
    else Scanned([], Some(UnexpectedCharacter(src[pos], pos)))
  }

  lemma {:induction false} ScanRowsStep(table: Table, src: string, pos: nat, line: int, column: int, rows: Table)
    requires pos < |src|
    ensures ScanRows(table, src, pos, line, column, rows) == Step(table, src, pos, line, column, FirstMatch(rows, src, pos))
  {
    if rows.Row? && MatchLength(rows.pattern, src, pos) == 0 {
      ScanRowsStep(table, src, pos, line, column, rows.next);
    }
  }

  /**
   * One step of the scan: the first row that matches wins, whitespace is
   * dropped, otherwise a `#` starts a comment and anything else is an error.
   */
  lemma ScanStep(table: Table, src: string, pos: nat, line: int, column: int)
    requires pos < |src|
    ensures Scan(table, src, pos, line, column) == Step(table, src, pos, line, column, FirstMatch(table, src, pos))
  {
    ScanRowsStep(table, src, pos, line, column, table);
  }

  /** A step of `tokenize` that matches a row, stated on the tokens emitted so far. */
  lemma ScanAfterMatch(table: Table, src: string, pos: nat, line: int, column: int, emitted: seq<Token>, kind: TokenKind, n: nat)
    requires pos < |src| && FirstMatch(table, src, pos) == Some((kind, n))
    ensures pos + n <= |src|
    ensures Prefixed(emitted, Scan(table, src, pos, line, column)) ==
      Prefixed(emitted + Emitted(kind, src[pos..pos + n], line, column), Scan(table, src, pos + n, line, column + n))
  {
    ScanStep(table, src, pos, line, column);
    PrefixedTwice(emitted, Emitted(kind, src[pos..pos + n], line, column), Scan(table, src, pos + n, line, column + n));
  }

  /** A step of `tokenize` that skips a comment, stated on the tokens emitted so far. */
  lemma ScanAfterComment(table: Table, src: string, pos: nat, line: int, column: int, emitted: seq<Token>)
    requires pos < |src| && FirstMatch(table, src, pos).None? && src[pos] == '#'
    ensures Prefixed(emitted, Scan(table, src, pos, line, column)) ==
      Prefixed(emitted, Scan(table, src, CommentEnd(src, pos), line + 1, 1))
  {
    ScanStep(table, src, pos, line, column);
  }

  /** The token list of a fresh lexer over `src`, or the error it raises. */
  function Lex(src: string): Result<seq<Token>, LexError> {
    var s := Scan(TokenTypes, src, 0, 1, 1);
    if s.failure.Some? then Err(s.failure.value) else Ok(s.tokens)
  }

  class Lexer {
    const source: string
    /** The pattern table, `TokenTypes` for every lexer the constructor builds. */
    const table: Table
    var tokens: seq<Token>
    var currentPosition: nat

    constructor (source: string)
      ensures this.source == source && table == TokenTypes && tokens == [] && currentPosition == 0
    {
      this.source := source;
      table := TokenTypes;
      tokens := [];
      currentPosition := 0;
    }

    /**
     * Tries the rows of `rows` (`Tokenize` passes the whole table) in order at
     * the current position and takes the first that matches: its token is
     * appended (unless it is whitespace) and the position and column move
     * past it. When no row matches, nothing changes.
     */
    method MatchToken(rows: Table, line: int, column: int) returns (matched: bool, nextColumn: int)
      requires currentPosition < |source|
      modifies this
      ensures var m := FirstMatch(rows, source, old(currentPosition));
        matched == m.Some? &&
        (!matched ==> tokens == old(tokens) && currentPosition == old(currentPosition) && nextColumn == column) &&
        (matched ==>
          currentPosition == old(currentPosition) + m.value.1 && nextColumn == column + m.value.1 &&
          tokens == old(tokens) + Emitted(m.value.0, source[old(currentPosition)..currentPosition], line, column))
    {
      var rest := rows;
      while rest.Row?
        invariant tokens == old(tokens) && currentPosition == old(currentPosition)
        invariant FirstMatch(rows, source, currentPosition) == FirstMatch(rest, source, currentPosition)
        decreases rest
      {
        var n := MatchLength(rest.pattern, source, currentPosition);
        if n > 0 {
          var text := source[currentPosition..currentPosition + n];
          if rest.kind != WHITESPACE {
            tokens := tokens + [Token(rest.kind, text, line, column)];
          }
          currentPosition := currentPosition + n;
          return true, column + n;
        }
        rest := rest.next;
      }
      return false, column;
    }

    /** Skips a comment: moves the position to the next newline, or to the end. */
    method SkipComment()
      requires currentPosition <= |source|
      modifies this
      ensures tokens == old(tokens) && currentPosition == CommentEnd(source, old(currentPosition))
    {
      while currentPosition < |source| && source[currentPosition] != '\n'
        invariant tokens == old(tokens) && old(currentPosition) <= currentPosition <= |source|
        invariant CommentEnd(source, currentPosition) == CommentEnd(source, old(currentPosition))
        decreases |source| - currentPosition
      {
        currentPosition := currentPosition + 1;
      }
    }

    /**
     * Runs the scanner from the current position with fresh line and column
     * counters, appending to `tokens`; the tokens emitted before an error stay
     * in the list and the position stays on the offending character.
     */
    method Tokenize() returns (r: Result<seq<Token>, LexError>)
      modifies this
      ensures var s := Scan(table, source, old(currentPosition), 1, 1);
        tokens == old(tokens) + s.tokens &&
        r == (if s.failure.Some? then Err(s.failure.value) else Ok(tokens)) &&
        currentPosition == (if s.failure.Some? then s.failure.value.at
                            else if old(currentPosition) < |source| then |source|
                            else old(currentPosition))
    {
      var line, column := 1, 1;
      // what is left to emit, behind the tokens emitted so far
      ghost var goal := Prefixed(tokens, Scan(table, source, currentPosition, 1, 1));
      while currentPosition < |source|
        invariant goal == Prefixed(tokens, Scan(table, source, currentPosition, line, column))
        invariant old(currentPosition) < |source| ==> currentPosition <= |source|
        invariant old(currentPosition) >= |source| ==> currentPosition == old(currentPosition)
        decreases |source| - currentPosition
      {
        ghost var pos, col, emitted := currentPosition, column, tokens;
        var matched;
        matched, column := MatchToken(table, line, column);
        if matched {
          ghost var m := FirstMatch(table, source, pos).value;
          ScanAfterMatch(table, source, pos, line, col, emitted, m.0, m.1);
        } else {
          if source[currentPosition] == '#' {
            ScanAfterComment(table, source, pos, line, col, emitted);
            // skip the comment up to, not including, the next newline
            SkipComment();
            line := line + 1;
            column := 1;
          } else {
            ScanStep(table, source, pos, line, col);
            r := Err(UnexpectedCharacter(source[currentPosition], currentPosition));
            return;
          }
        }
      }
      r := Ok(tokens);
    }
  }
}
