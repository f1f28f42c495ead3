/**
 * Properties of the AnuragLang lexer (ang_modules/lexer.py) that follow
 * from its table order and its scanning loop.
 */
module LexingFacts {
  import opened Wrappers
  import opened Lexing

  // Emitted tokens are words of their own row.

  /** Some row of `rows` has kind `kind` and a pattern whose language holds `text`. */
  predicate Accepts(rows: Table, kind: TokenKind, text: string) {
    match rows
    case End => false
    case Row(k, p, next) => (k == kind && InLanguage(p, text)) || Accepts(next, kind, text)
  }

  lemma {:induction false} FirstMatchAccepted(rows: Table, src: string, pos: nat)
    requires pos <= |src|
    ensures var m := FirstMatch(rows, src, pos);
      m.Some? ==> Accepts(rows, m.value.0, src[pos..pos + m.value.1])
  {
    if rows.Row? {
      MatchLengthSound(rows.pattern, src, pos);
      FirstMatchAccepted(rows.next, src, pos);
    }
  }

  /** The tokens of a scan: never whitespace, and each text is a word of a row of `table` of its own kind. */
  predicate WellFormed(table: Table, tokens: seq<Token>) {
    forall t <- tokens :: t.kind != WHITESPACE && Accepts(table, t.kind, t.text)
  }

  lemma {:induction false} ScanWellFormed(table: Table, src: string, pos: nat, line: int, column: int)
    ensures WellFormed(table, Scan(table, src, pos, line, column).tokens)
    decreases |src| - pos
  {
    if pos < |src| {
      ScanStep(table, src, pos, line, column);
      var m := FirstMatch(table, src, pos);
      if m.Some? {
        FirstMatchAccepted(table, src, pos);
        ScanWellFormed(table, src, pos + m.value.1, line, column + m.value.1);
      } else if src[pos] == '#' {
        ScanWellFormed(table, src, CommentEnd(src, pos), line + 1, 1);
      }
    }
  }

  // The table in strides of eight rows, so that no proof walks more than eight rows of it at once.

  /** The table from its ninth row, `NUMBER`, on. */
  function MiddleRows(): Table {
    TokenTypes.next.next.next.next.next.next.next.next
  }

  /** The table from its seventeenth row, `[`, on. */
  function LastRows(): Table {
    MiddleRows().next.next.next.next.next.next.next.next
  }

  /** The table from its twenty-fifth row, `<`, on. */
  function FinalRows(): Table {
    LastRows().next.next.next.next.next.next.next.next
  }

  /** Each stride starts at the first row of its kind. */
  lemma Strides()
    ensures From(TokenTypes, Some(NUMBER)) == MiddleRows() && From(MiddleRows(), Some(LBRACKET)) == LastRows()
    ensures From(LastRows(), Some(LT)) == FinalRows()
  {}

  // The first-match rule hides `EQ` behind `ASSIGN`.

  /** Every row of kind `k` in `rows` is a literal that starts with `prefix`. */
  predicate LiteralsExtend(rows: Table, k: TokenKind, prefix: string) {
    match rows
    case End => true
    case Row(kind, p, next) =>
      (kind == k ==> p.Verbatim? && prefix <= p.text) && LiteralsExtend(next, k, prefix)
  }

  /**
   * Every row of kind `k` in `rows` comes after a row of another kind whose
   * literal is a prefix of its own, so that earlier row always matches first.
   */
  predicate Shadowed(rows: Table, k: TokenKind) {
    match rows
    case End => true
    case Row(kind, p, next) =>
      kind != k &&
      ((p.Verbatim? && |p.text| > 0 && LiteralsExtend(next, k, p.text)) || Shadowed(next, k))
  }

  lemma {:induction false} LiteralAtPrefix(src: string, pos: nat, lit: string, prefix: string)
    requires pos <= |src| && 0 < |prefix| && prefix <= lit && LiteralAt(src, pos, lit, 0)
    ensures LiteralAt(src, pos, prefix, 0)
  {
    LiteralAtSlice(src, pos, lit, 0);
    LiteralAtSlice(src, pos, prefix, 0);
    forall j | 0 <= j < |prefix|
      ensures src[pos + j] == prefix[j]
    {
      assert prefix[j] == lit[j];
    }
  }

  /**
   * A shadowed kind never wins; nor does a kind whose rows all extend a
   * literal `guard` that has already failed to match here.
   */
  lemma {:induction false} ShadowedNeverFirst(rows: Table, src: string, pos: nat, k: TokenKind, guard: string)
    requires pos <= |src|
    requires Shadowed(rows, k) || (0 < |guard| && LiteralsExtend(rows, k, guard) && !LiteralAt(src, pos, guard, 0))
    ensures FirstMatch(rows, src, pos).Some? ==> FirstMatch(rows, src, pos).value.0 != k
  {
    match rows
    case End =>
    case Row(kind, p, next) =>
      if MatchLength(p, src, pos) == 0 {
        if Shadowed(rows, k) && p.Verbatim? && |p.text| > 0 && LiteralsExtend(next, k, p.text) {
          ShadowedNeverFirst(next, src, pos, k, p.text);
        } else {
          ShadowedNeverFirst(next, src, pos, k, guard);
        }
      } else if kind == k {
        // only the guarded case is left, and the guard would have matched
        LiteralAtPrefix(src, pos, p.text, guard);
      }
  }

  /** The `EQ` rows from `<` on are literals starting with `=`. */
  lemma EqFinalRowsExtendAssign()
    ensures LiteralsExtend(FinalRows(), EQ, "=")
  {}

  /** The `EQ` rows from `[` on are literals starting with `=`. */
  lemma EqLastRowsExtendAssign()
    ensures LiteralsExtend(LastRows(), EQ, "=")
  {
    EqFinalRowsExtendAssign();
  }

  /** From `NUMBER` on, the `EQ` row sits behind the `ASSIGN` row, whose `=` is a prefix of `==`. */
  lemma EqShadowedInMiddleRows()
    ensures Shadowed(MiddleRows(), EQ)
  {
    EqLastRowsExtendAssign();
  }

  /** The `EQ` row is shadowed in the whole table. */
  lemma EqShadowed()
    ensures Shadowed(TokenTypes, EQ)
  {
    EqShadowedInMiddleRows();
  }

  /** `=` comes before `==` in the table, so `EQ` never wins a position. */
  lemma EqNeverFirst(src: string, pos: nat)
    requires pos <= |src|
    ensures FirstMatch(TokenTypes, src, pos).Some? ==> FirstMatch(TokenTypes, src, pos).value.0 != EQ
  {
    EqShadowed();
    ShadowedNeverFirst(TokenTypes, src, pos, EQ, []);
  }

  /** A kind that is shadowed in the table is never emitted. */
  lemma {:induction false} ShadowedNeverEmitted(table: Table, k: TokenKind, src: string, pos: nat, line: int, column: int)
    requires Shadowed(table, k)
    ensures forall t <- Scan(table, src, pos, line, column).tokens :: t.kind != k
    decreases |src| - pos
  {
    if pos < |src| {
      ScanStep(table, src, pos, line, column);
      ShadowedNeverFirst(table, src, pos, k, []);
      var m := FirstMatch(table, src, pos);
      if m.Some? {
        var n := m.value.1;
        var rest := Scan(table, src, pos + n, line, column + n);
        ShadowedNeverEmitted(table, k, src, pos + n, line, column + n);
        assert Scan(table, src, pos, line, column).tokens == Emitted(m.value.0, src[pos..pos + n], line, column) + rest.tokens;
      } else if src[pos] == '#' {
        ShadowedNeverEmitted(table, k, src, CommentEnd(src, pos), line + 1, 1);
      }
    }
  }

  /** `==` always lexes as two `=` tokens: the lexer never emits an `EQ` token. */
  lemma EqNeverEmitted(src: string, pos: nat, line: int, column: int)
    ensures forall t <- Scan(TokenTypes, src, pos, line, column).tokens :: t.kind != EQ
  {
    EqShadowed();
    ShadowedNeverEmitted(TokenTypes, EQ, src, pos, line, column);
  }

  // Tokens come out in the order of the source.

  /** `a` comes strictly before `b` in (line, column) order. */
  predicate Before(a: Token, b: Token) {
    a.line < b.line || (a.line == b.line && a.column < b.column)
  }

  predicate NotBefore(t: Token, line: int, column: int) {
    line < t.line || (line == t.line && column <= t.column)
  }

  /** Strictly increasing (line, column) positions, none before the start counters. */
  predicate InSourceOrder(tokens: seq<Token>, line: int, column: int) {
    (forall t <- tokens :: NotBefore(t, line, column)) &&
    (forall i :: 0 < i < |tokens| ==> Before(tokens[i - 1], tokens[i]))
  }

  lemma InSourceOrderCons(t: Token, rest: seq<Token>, line: int, column: int, n: int)
    requires 0 < n && t.line == line && t.column == column && InSourceOrder(rest, line, column + n)
    ensures InSourceOrder([t] + rest, line, column)
  {
    var all := [t] + rest;
    forall i | 0 < i < |all|
      ensures Before(all[i - 1], all[i])
    {
      if i == 1 {
        assert all[1] == rest[0] && rest[0] in rest;
      } else {
        assert all[i - 1] == rest[i - 2] && all[i] == rest[i - 1];
      }
    }
  }

  lemma {:induction false} ScanInSourceOrder(table: Table, src: string, pos: nat, line: int, column: int)
    ensures InSourceOrder(Scan(table, src, pos, line, column).tokens, line, column)
    decreases |src| - pos
  {
    if pos < |src| {
      ScanStep(table, src, pos, line, column);
      var m := FirstMatch(table, src, pos);
      if m.Some? {
        var n := m.value.1;
        ScanInSourceOrder(table, src, pos + n, line, column + n);
        if m.value.0 != WHITESPACE {
          InSourceOrderCons(Token(m.value.0, src[pos..pos + n], line, column),
            Scan(table, src, pos + n, line, column + n).tokens, line, column, n);
        }
      } else if src[pos] == '#' {
        ScanInSourceOrder(table, src, CommentEnd(src, pos), line + 1, 1);
      }
    }
  }

  // Without comments, columns are offsets.

  predicate NoComment(src: string, pos: nat) {
    forall i :: pos <= i < |src| ==> src[i] != '#'
  }

  /** Every token is on `line`, and its text stands in the source at its column's offset from `pos`. */
  predicate AtColumns(src: string, pos: nat, line: int, column: int, tokens: seq<Token>) {
    forall t <- tokens ::
      t.line == line && column <= t.column &&
      pos + (t.column - column) + |t.text| <= |src| &&
      t.text == src[pos + (t.column - column)..pos + (t.column - column) + |t.text|]
  }

  /**
   * Without comments the line never changes, and the column counts every
   * character matched before the token, newlines included.
   */
  /** Moving the start on by `n` characters and `n` columns keeps every token where it is. */
  lemma AtColumnsShift(src: string, pos: nat, line: int, column: int, n: nat, tokens: seq<Token>)
    requires AtColumns(src, pos + n, line, column + n, tokens)
    ensures AtColumns(src, pos, line, column, tokens)
  {
    forall t <- tokens
      ensures t.line == line && column <= t.column &&
        pos + (t.column - column) + |t.text| <= |src| &&
        t.text == src[pos + (t.column - column)..pos + (t.column - column) + |t.text|]
    {
      assert pos + n + (t.column - (column + n)) == pos + (t.column - column);
    }
  }

  lemma {:induction false} ScanAtColumns(table: Table, src: string, pos: nat, line: int, column: int)
    requires NoComment(src, pos)
    ensures AtColumns(src, pos, line, column, Scan(table, src, pos, line, column).tokens)
    decreases |src| - pos
  {
    if pos < |src| {
      ScanStep(table, src, pos, line, column);
      var m := FirstMatch(table, src, pos);
      if m.Some? {
        var n := m.value.1;
        ScanAtColumns(table, src, pos + n, line, column + n);
        AtColumnsShift(src, pos, line, column, n, Scan(table, src, pos + n, line, column + n).tokens);
      }
    }
  }


  // Which row wins, decided by the character at the position.

  /** A set of characters: the digits, the letters that begin no keyword, the blanks, or one character. */
  datatype Lead = DigitLead | NameLead | SpaceLead | CharLead(c: char)

  /** The first letters of the eight keywords. */
  predicate KeywordInitial(c: char) {
    c == 'a' || c == 'p' || c == 't' || c == 'i' || c == 'o' || c == 'w' || c == 'f' || c == 'r'
  }

  predicate Leads(l: Lead, c: char) {
    match l
    case DigitLead => IsDigit(c)
    case NameLead => IsIdentStart(c) && !KeywordInitial(c)
    case SpaceLead => IsSpace(c)
    case CharLead(d) => c == d
  }

  /** No character of `l` can start a match of `p`. */
  predicate CannotStart(p: Pattern, l: Lead) {
    match p
    case Verbatim(lit) => |lit| == 0 || !Leads(l, lit[0])
    case Digits => l.NameLead? || l.SpaceLead? || (l.CharLead? && !IsDigit(l.c))
    case Identifier => l.DigitLead? || l.SpaceLead? || (l.CharLead? && !IsIdentStart(l.c))
    case Quoted => !l.CharLead? || l.c != '"'
    case Blanks => l.DigitLead? || l.NameLead? || (l.CharLead? && !IsSpace(l.c))
  }

  lemma CannotStartMisses(p: Pattern, l: Lead, src: string, pos: nat)
    requires pos < |src| && Leads(l, src[pos]) && CannotStart(p, l)
    ensures MatchLength(p, src, pos) == 0
  {
    match p
    case Verbatim(lit) =>
      if |lit| > 0 {
        assert !LiteralAt(src, pos, lit, 0);
      }
    case Digits =>
    case Identifier =>
    case Quoted =>
    case Blanks =>
  }

  /** The tail of `rows` from the first row of kind `stop`; `End` when there is none or `stop` is `None`. */
  function From(rows: Table, stop: Option<TokenKind>): (r: Table)
    ensures r.Row? ==> stop == Some(r.kind)
  {
    match rows
    case End => End
    case Row(kind, _, next) => if stop == Some(kind) then rows else From(next, stop)
  }

  /** No row of `rows` before the first row of kind `stop` can start with a character of `l`. */
  predicate MissUntil(rows: Table, stop: Option<TokenKind>, l: Lead) {
    match rows
    case End => true
    case Row(kind, p, next) => stop == Some(kind) || (CannotStart(p, l) && MissUntil(next, stop, l))
  }

  /** Rows that cannot start with the current character are passed over. */
  lemma {:induction false} SkipRows(rows: Table, stop: Option<TokenKind>, l: Lead, src: string, pos: nat)
    requires pos < |src| && Leads(l, src[pos]) && MissUntil(rows, stop, l)
    ensures FirstMatch(rows, src, pos) == FirstMatch(From(rows, stop), src, pos)
  {
    if rows.Row? && stop != Some(rows.kind) {
      CannotStartMisses(rows.pattern, l, src, pos);
      SkipRows(rows.next, stop, l, src, pos);
    }
  }

  /** The row of kind `stop` decides, when no earlier row can start with the character at `pos`. */
  lemma Dispatch(l: Lead, stop: TokenKind, src: string, pos: nat)
    requires pos < |src| && Leads(l, src[pos]) && MissUntil(TokenTypes, Some(stop), l)
    ensures FirstMatch(TokenTypes, src, pos) == FirstMatch(From(TokenTypes, Some(stop)), src, pos)
  {
    SkipRows(TokenTypes, Some(stop), l, src, pos);
  }

  /** `=` is always an `ASSIGN` of its own, whatever follows. */
  lemma AssignWins(src: string, pos: nat)
    requires pos < |src| && src[pos] == '='
    ensures FirstMatch(TokenTypes, src, pos) == Some((ASSIGN, 1))
  {
    assert MissUntil(TokenTypes, Some(ASSIGN), CharLead('='));
    Dispatch(CharLead('='), ASSIGN, src, pos);
  }

  /** The eight keyword rows: each kind with its literal. */
  predicate KeywordRow(kind: TokenKind, lit: string) {
    (kind == ASSUME && lit == "assume") || (kind == PRODUCE && lit == "produce") ||
    (kind == TAKE && lit == "take") || (kind == INCASE && lit == "incase") ||
    (kind == OTHERWISE && lit == "otherwise") || (kind == WHILE && lit == "while") ||
    (kind == FUNCTION && lit == "function") || (kind == RETURN && lit == "return")
  }

  /** No keyword row before a keyword's own can start with that keyword's first letter. */
  lemma KeywordRowsDiffer(kind: TokenKind, lit: string)
    requires KeywordRow(kind, lit)
    ensures MissUntil(TokenTypes, Some(kind), CharLead(lit[0])) && From(TokenTypes, Some(kind)).pattern == Verbatim(lit)
  {
    if kind == PRODUCE {
      assert MissUntil(TokenTypes, Some(PRODUCE), CharLead('p'));
    } else if kind == TAKE || kind == INCASE {
      TakeIncaseRowsDiffer(kind, lit);
    } else if kind == OTHERWISE || kind == WHILE {
      OtherwiseWhileRowsDiffer(kind, lit);
    } else if kind == FUNCTION {
      FunctionRowDiffers();
    } else if kind == RETURN {
      ReturnRowDiffers();
    }
  }

  lemma TakeIncaseRowsDiffer(kind: TokenKind, lit: string)
    requires KeywordRow(kind, lit) && (kind == TAKE || kind == INCASE)
    ensures MissUntil(TokenTypes, Some(kind), CharLead(lit[0])) && From(TokenTypes, Some(kind)).pattern == Verbatim(lit)
  {
    if kind == TAKE {
      assert MissUntil(TokenTypes, Some(TAKE), CharLead('t'));
    } else {
      assert MissUntil(TokenTypes, Some(INCASE), CharLead('i'));
    }
  }

  lemma OtherwiseWhileRowsDiffer(kind: TokenKind, lit: string)
    requires KeywordRow(kind, lit) && (kind == OTHERWISE || kind == WHILE)
    ensures MissUntil(TokenTypes, Some(kind), CharLead(lit[0])) && From(TokenTypes, Some(kind)).pattern == Verbatim(lit)
  {
    if kind == OTHERWISE {
      assert MissUntil(TokenTypes, Some(OTHERWISE), CharLead('o'));
    } else {
      assert MissUntil(TokenTypes, Some(WHILE), CharLead('w'));
    }
  }

  lemma FunctionRowDiffers()
    ensures MissUntil(TokenTypes, Some(FUNCTION), CharLead('f')) && From(TokenTypes, Some(FUNCTION)).pattern == Verbatim("function")
  {
  }

  lemma ReturnRowDiffers()
    ensures MissUntil(TokenTypes, Some(RETURN), CharLead('r')) && From(TokenTypes, Some(RETURN)).pattern == Verbatim("return")
  {
  }

  /**
   * Keywords need no word boundary: where a keyword's text stands, its row
   * wins, whatever follows it.
   */
  lemma KeywordWins(src: string, pos: nat, kind: TokenKind, lit: string)
    requires KeywordRow(kind, lit) && pos + |lit| <= |src| && src[pos..pos + |lit|] == lit
    ensures FirstMatch(TokenTypes, src, pos) == Some((kind, |lit|))
  {
    assert src[pos] == lit[0];
    LiteralAtSlice(src, pos, lit, 0);
    KeywordRowsDiffer(kind, lit);
    Dispatch(CharLead(lit[0]), kind, src, pos);
  }

  /** A digit starts a `NUMBER`: the run of digits there, even when letters follow. */
  lemma NumberWins(src: string, pos: nat)
    requires pos < |src| && IsDigit(src[pos])
    ensures FirstMatch(TokenTypes, src, pos) == Some((NUMBER, MatchLength(Digits, src, pos)))
  {
    assert MissUntil(TokenTypes, Some(NUMBER), DigitLead);
    Dispatch(DigitLead, NUMBER, src, pos);
    assert From(TokenTypes, Some(NUMBER)).pattern == Digits;
  }

  /** A letter that begins no keyword starts an `IDENTIFIER`: the run of word characters there. */
  lemma IdentifierWins(src: string, pos: nat)
    requires pos < |src| && Leads(NameLead, src[pos])
    ensures FirstMatch(TokenTypes, src, pos) == Some((IDENTIFIER, MatchLength(Identifier, src, pos)))
  {
    assert MissUntil(TokenTypes, Some(IDENTIFIER), NameLead);
    Dispatch(NameLead, IDENTIFIER, src, pos);
    assert From(TokenTypes, Some(IDENTIFIER)).pattern == Identifier;
  }

  /**
   * A character that starts none of the first twenty-four rows gets to the
   * twenty-fifth, `<`, in three strides of eight rows.
   */
  lemma PastFirstRows(l: Lead, src: string, pos: nat)
    requires pos < |src| && Leads(l, src[pos])
    requires MissUntil(TokenTypes, Some(NUMBER), l) && MissUntil(MiddleRows(), Some(LBRACKET), l)
    requires MissUntil(LastRows(), Some(LT), l)
    ensures FirstMatch(TokenTypes, src, pos) == FirstMatch(FinalRows(), src, pos)
  {
    Strides();
    SkipRows(TokenTypes, Some(NUMBER), l, src, pos);
    SkipRows(MiddleRows(), Some(LBRACKET), l, src, pos);
    SkipRows(LastRows(), Some(LT), l, src, pos);
  }

  lemma SpaceFirstRows()
    ensures MissUntil(TokenTypes, Some(NUMBER), SpaceLead) && MissUntil(MiddleRows(), Some(LBRACKET), SpaceLead)
  {}

  lemma SpaceLastRows()
    ensures MissUntil(LastRows(), Some(LT), SpaceLead) && MissUntil(FinalRows(), Some(WHITESPACE), SpaceLead)
    ensures From(FinalRows(), Some(WHITESPACE)).pattern == Blanks
  {}

  /** A blank starts a `WHITESPACE` match over all the blanks there, newlines included. */
  lemma BlanksWin(src: string, pos: nat)
    requires pos < |src| && IsSpace(src[pos])
    ensures FirstMatch(TokenTypes, src, pos) == Some((WHITESPACE, MatchLength(Blanks, src, pos)))
  {
    SpaceFirstRows();
    SpaceLastRows();
    PastFirstRows(SpaceLead, src, pos);
    SkipRows(FinalRows(), Some(WHITESPACE), SpaceLead, src, pos);
  }

  /** A character that starts no row at all matches nothing. */
  lemma NothingStarts(l: Lead, src: string, pos: nat)
    requires pos < |src| && Leads(l, src[pos])
    requires MissUntil(TokenTypes, Some(NUMBER), l) && MissUntil(MiddleRows(), Some(LBRACKET), l)
    requires MissUntil(LastRows(), Some(LT), l) && MissUntil(FinalRows(), None, l)
    ensures FirstMatch(TokenTypes, src, pos) == None
  {
    PastFirstRows(l, src, pos);
    SkipRows(FinalRows(), None, l, src, pos);
  }

  lemma HashFirstRows()
    ensures MissUntil(TokenTypes, Some(NUMBER), CharLead('#')) && MissUntil(MiddleRows(), Some(LBRACKET), CharLead('#'))
  {}

  lemma HashLastRows()
    ensures MissUntil(LastRows(), Some(LT), CharLead('#')) && MissUntil(FinalRows(), None, CharLead('#'))
  {}

  /** No pattern starts with `#`, so `tokenize` falls through to its comment branch. */
  lemma HashMatchesNothing(src: string, pos: nat)
    requires pos < |src| && src[pos] == '#'
    ensures FirstMatch(TokenTypes, src, pos) == None
  {
    HashFirstRows();
    HashLastRows();
    NothingStarts(CharLead('#'), src, pos);
  }

  lemma QuoteLastRows()
    ensures MissUntil(LastRows(), Some(LT), CharLead('"')) && MissUntil(FinalRows(), None, CharLead('"'))
  {}

  /** A `"` with no closing quote matches nothing. */
  lemma UnterminatedMatchesNothing(src: string, pos: nat)
    requires pos < |src| && src[pos] == '"' && StringEnd(src, pos + 1).None?
    ensures FirstMatch(TokenTypes, src, pos) == None
  {
    var l := CharLead('"');
    assert MissUntil(TokenTypes, Some(STRING), l);
    SkipRows(TokenTypes, Some(STRING), l, src, pos);
    var rows := From(TokenTypes, Some(STRING));
    assert rows.pattern == Quoted;
    assert MissUntil(rows.next, Some(LBRACKET), l);
    SkipRows(rows.next, Some(LBRACKET), l, src, pos);
    assert From(rows.next, Some(LBRACKET)) == LastRows();
    QuoteLastRows();
    Strides();
    SkipRows(LastRows(), Some(LT), l, src, pos);
    SkipRows(FinalRows(), None, l, src, pos);
  }

  // Whole scans, one winning row at a time.

  /** A position won by a row other than whitespace emits that row's token, and the scan goes on after it. */
  lemma Emits(table: Table, src: string, pos: nat, line: int, column: int, kind: TokenKind, n: nat)
    requires pos < |src| && FirstMatch(table, src, pos) == Some((kind, n)) && kind != WHITESPACE
    ensures pos + n <= |src|
    ensures Scan(table, src, pos, line, column) ==
      Prefixed([Token(kind, src[pos..pos + n], line, column)], Scan(table, src, pos + n, line, column + n))
  {
    ScanStep(table, src, pos, line, column);
  }

  /** Two emitting steps in a row. */
  lemma EmitsTwo(table: Table, src: string, pos: nat, line: int, column: int, k1: TokenKind, n1: nat, k2: TokenKind, n2: nat)
    requires pos < |src| && FirstMatch(table, src, pos) == Some((k1, n1)) && k1 != WHITESPACE
    requires pos + n1 < |src| && FirstMatch(table, src, pos + n1) == Some((k2, n2)) && k2 != WHITESPACE
    ensures pos + n1 + n2 <= |src|
    ensures Scan(table, src, pos, line, column) ==
      Prefixed([Token(k1, src[pos..pos + n1], line, column), Token(k2, src[pos + n1..pos + n1 + n2], line, column + n1)],
               Scan(table, src, pos + n1 + n2, line, column + n1 + n2))
  {
    Emits(table, src, pos, line, column, k1, n1);
    Emits(table, src, pos + n1, line, column + n1, k2, n2);
    var t1, t2 := Token(k1, src[pos..pos + n1], line, column), Token(k2, src[pos + n1..pos + n1 + n2], line, column + n1);
    var rest := Scan(table, src, pos + n1 + n2, line, column + n1 + n2).tokens;
    assert [t1] + ([t2] + rest) == [t1, t2] + rest;
  }

  /** A position won by the whitespace row emits nothing, and the scan goes on after the blanks. */
  lemma Skips(table: Table, src: string, pos: nat, line: int, column: int, n: nat)
    requires pos < |src| && FirstMatch(table, src, pos) == Some((WHITESPACE, n))
    ensures pos + n <= |src| && Scan(table, src, pos, line, column) == Scan(table, src, pos + n, line, column + n)
  {
    ScanStep(table, src, pos, line, column);
  }

  /** Where no row matches, a `#` starts a comment and any other character stops the scan. */
  lemma Unmatched(table: Table, src: string, pos: nat, line: int, column: int)
    requires pos < |src| && FirstMatch(table, src, pos) == None
    ensures Scan(table, src, pos, line, column) ==
      if src[pos] == '#' then Scan(table, src, CommentEnd(src, pos), line + 1, 1)
      else Scanned([], Some(UnexpectedCharacter(src[pos], pos)))
  {
    ScanStep(table, src, pos, line, column);
  }

  // The scan around comments and whitespace.

  /**
   * A `#` starts a comment that runs up to the next newline, which is left
   * in place; the line moves on and the column starts again at 1.
   */
  lemma CommentSkipped(src: string, pos: nat, line: int, column: int)
    requires pos < |src| && src[pos] == '#'
    ensures Scan(TokenTypes, src, pos, line, column) == Scan(TokenTypes, src, CommentEnd(src, pos), line + 1, 1)
  {
    HashMatchesNothing(src, pos);
    Unmatched(TokenTypes, src, pos, line, column);
  }

  /** Whitespace is dropped, and the column moves by its length, newlines included. */
  lemma BlanksSkipped(src: string, pos: nat, line: int, column: int)
    requires pos < |src| && IsSpace(src[pos])
    ensures var n := MatchLength(Blanks, src, pos);
      0 < n && Scan(TokenTypes, src, pos, line, column) == Scan(TokenTypes, src, pos + n, line, column + n)
  {
    BlanksWin(src, pos);
    Skips(TokenTypes, src, pos, line, column, MatchLength(Blanks, src, pos));
  }

  // Consequences of first match for whole scans.

  /** `==` is scanned as two `ASSIGN` tokens. */
  lemma EqualsEqualsIsTwoAssigns(src: string, pos: nat, line: int, column: int)
    requires pos + 2 <= |src| && src[pos] == '=' && src[pos + 1] == '='
    ensures Scan(TokenTypes, src, pos, line, column) ==
      Prefixed([Token(ASSIGN, "=", line, column), Token(ASSIGN, "=", line, column + 1)],
               Scan(TokenTypes, src, pos + 2, line, column + 2))
  {
    AssignWins(src, pos);
    AssignWins(src, pos + 1);
    EmitsTwo(TokenTypes, src, pos, line, column, ASSIGN, 1, ASSIGN, 1);
    assert src[pos..pos + 1] == "=" && src[pos + 1..pos + 2] == "=";
  }

  /**
   * A keyword followed by a letter that begins no keyword is still the
   * keyword, then an identifier: `assumex` is `ASSUME`, `x`, and `whiley` is
   * `WHILE`, `y` (`EmitsTwo` turns the two wins into the two tokens).
   */
  lemma KeywordThenName(src: string, pos: nat, kind: TokenKind, lit: string)
    requires KeywordRow(kind, lit) && pos + |lit| < |src| && src[pos..pos + |lit|] == lit
    requires Leads(NameLead, src[pos + |lit|])
    ensures FirstMatch(TokenTypes, src, pos) == Some((kind, |lit|))
    ensures FirstMatch(TokenTypes, src, pos + |lit|) == Some((IDENTIFIER, MatchLength(Identifier, src, pos + |lit|)))
  {
    KeywordWins(src, pos, kind, lit);
    IdentifierWins(src, pos + |lit|);
  }

  /** A number followed by a letter is a `NUMBER` then an `IDENTIFIER`: `12xy` is `12`, `xy`. */
  lemma NumberThenName(src: string, pos: nat)
    requires pos < |src| && IsDigit(src[pos])
    requires pos + MatchLength(Digits, src, pos) < |src| && Leads(NameLead, src[pos + MatchLength(Digits, src, pos)])
    ensures var n := MatchLength(Digits, src, pos);
      FirstMatch(TokenTypes, src, pos) == Some((NUMBER, n)) &&
      FirstMatch(TokenTypes, src, pos + n) == Some((IDENTIFIER, MatchLength(Identifier, src, pos + n)))
  {
    NumberWins(src, pos);
    IdentifierWins(src, pos + MatchLength(Digits, src, pos));
  }

  /** A `"` with no closing quote stops the scan with an error at the quote. */
  lemma UnterminatedStringFails(src: string, pos: nat, line: int, column: int)
    requires pos < |src| && src[pos] == '"' && StringEnd(src, pos + 1).None?
    ensures Scan(TokenTypes, src, pos, line, column) == Scanned([], Some(UnexpectedCharacter('"', pos)))
  {
    UnterminatedMatchesNothing(src, pos);
    Unmatched(TokenTypes, src, pos, line, column);
  }

  /** For instance, `"xy` is an error. */
  lemma UnterminatedString()
    ensures Lex("\"xy") == Err(UnexpectedCharacter('"', 0))
  {
    UnterminatedStringFails("\"xy", 0, 1, 1);
  }
}
