/**
 * The scanner: one forward pass over the source text that turns characters
 * into tokens. `Step` and `ScanFrom` specify one `scanToken` call and the
 * whole scan; the class `Scanner` is the step-by-step implementation with a
 * cursor (`start`, `current`, `line`) and a growing token list, proved equal to
 * them.
 */
module Scanning {
  import opened Values
  import opened Tokens

  predicate IsDigit(c: char) { '0' <= c <= '9' }

  predicate IsAlpha(c: char) { c == '_' || 'a' <= c <= 'z' || 'A' <= c <= 'Z' }

  predicate IsAlphanumeric(c: char) { IsDigit(c) || IsAlpha(c) }

  /** The characters from `lo` to `hi`, in order. */
  function CharRange(lo: char, hi: char): (s: seq<char>)
    requires lo <= hi && hi as int < 0xD800
    ensures |s| == hi as int - lo as int + 1 && s[0] == lo && s[|s| - 1] == hi
  {
    seq(hi as int - lo as int + 1, i requires 0 <= i <= hi as int - lo as int => (lo as int + i) as char)
  }

  /** The character classes are ASCII ranges: the digits, and `_` with the
      lower- and upper-case letters; no other character belongs to them. */
  lemma CharacterClasses(c: char)
    ensures IsDigit(c) <==> c in CharRange('0', '9')
    ensures IsAlpha(c) <==> c == '_' || c in CharRange('a', 'z') || c in CharRange('A', 'Z')
    ensures IsAlphanumeric(c) <==> IsDigit(c) || IsAlpha(c)
  {
    if '0' <= c <= '9' {
      assert CharRange('0', '9')[c as int - '0' as int] == c;
    }
    if 'a' <= c <= 'z' {
      assert CharRange('a', 'z')[c as int - 'a' as int] == c;
    }
    if 'A' <= c <= 'Z' {
      assert CharRange('A', 'Z')[c as int - 'A' as int] == c;
    }
  }

  predicate NotNewline(c: char) { c != '\n' }

  predicate NotQuote(c: char) { c != '"' }

  /** The fixed table of reserved words. */
  const Keywords: map<string, TokenType> := map[
    "and" := AND, "class" := CLASS, "else" := ELSE, "false" := FALSE,
    "for" := FOR, "fun" := FUN, "if" := IF, "nil" := NIL,
    "or" := OR, "print" := PRINT, "return" := RETURN, "super" := SUPER,
    "this" := THIS, "true" := TRUE, "var" := VAR, "while" := WHILE]

  /** The number of newline characters in `s`. */
  function Newlines(s: string): nat
  {
    if s == [] then 0 else (if s[0] == '\n' then 1 else 0) + Newlines(s[1..])
  }

  lemma {:induction false} NewlinesAppend(a: string, b: string)
    ensures Newlines(a + b) == Newlines(a) + Newlines(b)
  {
    if a != [] {
      assert (a + b)[0] == a[0] && (a + b)[1..] == a[1..] + b;
      NewlinesAppend(a[1..], b);
    } else {
      assert a + b == b;
    }
  }

  lemma {:induction false} NewlinesNone(s: string)
    requires forall k :: 0 <= k < |s| ==> s[k] != '\n'
    ensures Newlines(s) == 0
  {
    if s != [] {
      NewlinesNone(s[1..]);
    }
  }

  /** Splitting a range of the source at `j` splits its newline count. */
  lemma NewlinesSplit(s: string, i: nat, j: nat, k: nat)
    requires i <= j <= k <= |s|
    ensures Newlines(s[i..k]) == Newlines(s[i..j]) + Newlines(s[j..k])
  {
    assert s[i..k] == s[i..j] + s[j..k];
    NewlinesAppend(s[i..j], s[j..k]);
  }

  /** Extending a range by one character adds one when it is a newline. */
  lemma NewlinesExtend(s: string, i: nat, j: nat)
    requires i <= j < |s|
    ensures Newlines(s[i..j + 1]) == Newlines(s[i..j]) + (if s[j] == '\n' then 1 else 0)
  {
    NewlinesSplit(s, i, j, j + 1);
    assert s[j..j + 1] == [s[j]];
  }

  /** The first index at or after `i` whose character fails `p` (or the end):
      what a `while (p(peek()) && !isAtEnd()) advance();` loop stops at. */
  function SkipWhile(s: string, i: nat, p: char -> bool): (j: nat)
    requires i <= |s|
    ensures i <= j <= |s|
    ensures forall k :: i <= k < j ==> p(s[k])
    ensures j < |s| ==> !p(s[j])
    decreases |s| - i
  {
    if i < |s| && p(s[i]) then SkipWhile(s, i + 1, p) else i
  }

  /** `SkipWhile` is determined by its contract: the first failing index. */
  lemma {:induction false} SkipWhileAt(s: string, i: nat, p: char -> bool, j: nat)
    requires i <= j <= |s|
    requires forall k :: i <= k < j ==> p(s[k])
    requires j == |s| || !p(s[j])
    ensures SkipWhile(s, i, p) == j
    decreases j - i
  {
    if i < j {
      SkipWhileAt(s, i + 1, p, j);
    }
  }

  /** `match(expected)` at position `i`: not at end and the character there is `expected`. */
  predicate Matches(s: string, i: nat, expected: char)
  {
    i < |s| && s[i] == expected
  }

  /** Where a number lexeme that starts with a digit ends, given the position
      after its first digit: the digit run, then `.` and a digit run only when
      a digit follows the dot. */
  function NumberEnd(s: string, i: nat): (j: nat)
    requires i <= |s|
    ensures i <= j <= |s|
    ensures forall k :: i <= k < j ==> IsDigit(s[k]) || s[k] == '.'
  {
    var intEnd := SkipWhile(s, i, IsDigit);
    if Matches(s, intEnd, '.') && intEnd + 1 < |s| && IsDigit(s[intEnd + 1])
    then SkipWhile(s, intEnd + 1, IsDigit)
    else intEnd
  }

  /** The outcome of one `scanToken` call that begins at `start`. */
  datatype Stepped = Stepped(end: nat, line: int, token: Option<Token>, error: Option<Diagnostic>)

  /** A step that adds a token whose text is `source[start..end]`. */
  function Emit(source: string, start: nat, end: nat, line: int, kind: TokenType, literal: Value): Stepped
    requires start <= end <= |source|
  {
    Stepped(end, line, Some(Token(kind, source[start..end], literal, line)), None)
  }

  predicate IsSingleChar(c: char)
  {
    c == '(' || c == ')' || c == '{' || c == '}' || c == ',' || c == '.' || c == '-' || c == '+' || c == ';' || c == '*'
  }

  predicate IsOperatorChar(c: char)
  {
    c == '!' || c == '=' || c == '<' || c == '>'
  }

  /** The kind of each single-character token. */
  function SingleKind(c: char): TokenType
    requires IsSingleChar(c)
  {
    match c
    case '(' => LEFT_PAREN
    case ')' => RIGHT_PAREN
    case '{' => LEFT_BRACE
    case '}' => RIGHT_BRACE
    case ',' => COMMA
    case '.' => DOT
    case '-' => MINUS
    case '+' => PLUS
    case ';' => SEMICOLON
    case '*' => STAR
  }

  /** The kind of a one-or-two-character operator: `withEqual` when it is
      followed by `=`, which then belongs to the token. */
  function OperatorKind(c: char, withEqual: bool): TokenType
    requires IsOperatorChar(c)
  {
    match c
    case '!' => if withEqual then BANG_EQUAL else BANG
    case '=' => if withEqual then EQUAL_EQUAL else EQUAL
    case '<' => if withEqual then LESS_EQUAL else LESS
    case '>' => if withEqual then GREATER_EQUAL else GREATER
  }

  function StringStep(source: string, start: nat, line: int): (r: Stepped)
    requires start < |source|
    ensures start < r.end <= |source|
  {
    var close := SkipWhile(source, start + 1, NotQuote);
    var endLine := line + Newlines(source[start + 1..close]);
    if close == |source| then
      Stepped(close, endLine, None, Some(Diagnostic(endLine, "", "Unterminated string.")))
    else
      Emit(source, start, close + 1, endLine, STRING, Str(source[start + 1..close]))
  }

  function IdentifierKind(text: string): TokenType
  {
    if text in Keywords then Keywords[text] else IDENTIFIER
  }

  /** One `scanToken` call starting at `start` on line `line`. */
  function Step(source: string, parse: string -> Double, start: nat, line: int): (r: Stepped)
    requires start < |source|
    ensures start < r.end <= |source|
  {
    var next := start + 1;
    match source[start]
    case '(' | ')' | '{' | '}' | ',' | '.' | '-' | '+' | ';' | '*' =>
      Emit(source, start, next, line, SingleKind(source[start]), Nil)
    case '!' | '=' | '<' | '>' =>
      var withEqual := Matches(source, next, '=');
      Emit(source, start, if withEqual then next + 1 else next, line, OperatorKind(source[start], withEqual), Nil)
    case '/' =>
      if Matches(source, next, '/') then Stepped(SkipWhile(source, next + 1, NotNewline), line, None, None)
      else Emit(source, start, next, line, SLASH, Nil)
    case ' ' | '\r' | '\t' => Stepped(next, line, None, None)
    case '\n' => Stepped(next, line + 1, None, None)
    case '"' => StringStep(source, start, line)
    case c =>
      if IsDigit(c) then
        var end := NumberEnd(source, next);
        Emit(source, start, end, line, NUMBER, Num(parse(source[start..end])))
      else if IsAlpha(c) then
        var end := SkipWhile(source, next, IsAlphanumeric);
        Emit(source, start, end, line, IdentifierKind(source[start..end]), Nil)
      else
        Stepped(next, line, None, Some(Diagnostic(line, "", "Unexpected character.")))
  }

  datatype Span = Span(start: nat, end: nat)

  /** The tokens, their source spans and the diagnostics of a scan. */
  datatype Scanned = Scanned(tokens: seq<Token>, spans: seq<Span>, errors: seq<Diagnostic>)

  /** The rest of `scanTokens` from position `current` on line `line`. */
  function ScanFrom(source: string, parse: string -> Double, current: nat, line: int): (r: Scanned)
    requires current <= |source|
    ensures 1 <= |r.tokens| == |r.spans| <= |source| - current + 1
    ensures |r.tokens| + |r.errors| <= |source| - current + 1
    decreases |source| - current
  {
    if current == |source| then
      Scanned([Token(EOF, "", Nil, line)], [Span(current, current)], [])
    else
      var st := Step(source, parse, current, line);
      var rest := ScanFrom(source, parse, st.end, st.line);
      Scanned(OptionToSeq(st.token) + rest.tokens,
              (if st.token.Some? then [Span(current, st.end)] else []) + rest.spans,
              OptionToSeq(st.error) + rest.errors)
  }

  /** `ScanFrom` before the end: the step's token and error, then the rest. */
  lemma ScanFromStep(source: string, parse: string -> Double, current: nat, line: int, st: Stepped)
    requires current < |source| && st == Step(source, parse, current, line)
    ensures var s := ScanFrom(source, parse, current, line);
            var rest := ScanFrom(source, parse, st.end, st.line);
            && s.tokens == OptionToSeq(st.token) + rest.tokens
            && s.spans == (if st.token.Some? then [Span(current, st.end)] else []) + rest.spans
            && s.errors == OptionToSeq(st.error) + rest.errors
  {
  }

  /** What `new Scanner(source).scanTokens()` computes. */
  function Scan(source: string, parse: string -> Double): (r: Scanned)
    ensures |r.tokens| > 0 && r.tokens[|r.tokens| - 1] == Token(EOF, "", Nil, 1 + Newlines(source))
    ensures forall i :: 0 <= i < |r.tokens| - 1 ==> r.tokens[i].kind != EOF
  {
    ScanEndsWithEof(source, parse, 0, 1);
    assert source[0..] == source;
    ScanFrom(source, parse, 0, 1)
  }

  /** The text of a number literal: digits, optionally `.` and more digits. */
  predicate AllDigits(t: string)
  {
    |t| > 0 && forall k :: 0 <= k < |t| ==> IsDigit(t[k])
  }

  predicate IsNumberLexeme(t: string)
  {
    AllDigits(t) || exists d :: 0 < d < |t| && t[d] == '.' && AllDigits(t[..d]) && AllDigits(t[d + 1..])
  }

  /** What every step guarantees: it consumes at least one character; `line`
      grows by the newlines consumed (inside string literals too); a token it
      adds spans exactly the consumed characters, carries the line the step
      ended on and is never EOF; it adds a token or reports an error, never
      both; and an error is one of the two lexical errors, with no location. */
  ghost predicate StepFacts(source: string, start: nat, line: int, r: Stepped)
  {
    && start < r.end <= |source|
    && r.line == line + Newlines(source[start..r.end])
    && (r.token.Some? ==>
          && r.token.value.lexeme == source[start..r.end]
          && r.token.value.line == r.line && r.token.value.kind != EOF)
    && (r.token.None? || r.error.None?)
    && (r.error.Some? ==>
          && r.error.value.line == r.line && r.error.value.where == ""
          && r.error.value.message in {"Unexpected character.", "Unterminated string."})
  }

  lemma StepFactsString(source: string, parse: string -> Double, start: nat, line: int)
    requires start < |source| && source[start] == '"'
    ensures StepFacts(source, start, line, Step(source, parse, start, line))
  {
    var close := SkipWhile(source, start + 1, NotQuote);
    NewlinesSplit(source, start, start + 1, close);
    assert source[start..start + 1] == ['"'];
    if close < |source| {
      NewlinesSplit(source, start, close, close + 1);
      assert source[close..close + 1] == ['"'];
    }
  }

  lemma StepFactsNewline(source: string, parse: string -> Double, start: nat, line: int)
    requires start < |source| && source[start] == '\n'
    ensures StepFacts(source, start, line, Step(source, parse, start, line))
  {
    assert source[start..start + 1] == ['\n'];
  }

  /** The steps that never consume a newline. */
  lemma StepFactsNoNewline(source: string, parse: string -> Double, start: nat, line: int)
    requires start < |source|
    requires var r := Step(source, parse, start, line);
             && start < r.end <= |source| && r.line == line
             && forall k :: start <= k < r.end ==> source[k] != '\n'
    ensures Newlines(source[start..Step(source, parse, start, line).end]) == 0
  {
    NewlinesNone(source[start..Step(source, parse, start, line).end]);
  }

  lemma StepFactsNumber(source: string, parse: string -> Double, start: nat, line: int)
    requires start < |source| && IsDigit(source[start])
    ensures StepFacts(source, start, line, Step(source, parse, start, line))
  {
    StepFactsNoNewline(source, parse, start, line);
  }

  lemma StepFactsIdentifier(source: string, parse: string -> Double, start: nat, line: int)
    requires start < |source| && IsAlpha(source[start])
    ensures StepFacts(source, start, line, Step(source, parse, start, line))
  {
    StepFactsNoNewline(source, parse, start, line);
  }

  lemma StepFactsSymbol(source: string, parse: string -> Double, start: nat, line: int)
    requires start < |source| && source[start] != '"' && source[start] != '\n'
    requires !IsDigit(source[start]) && !IsAlpha(source[start])
    ensures StepFacts(source, start, line, Step(source, parse, start, line))
  {
    StepFactsNoNewline(source, parse, start, line);
  }

  lemma StepWellFormed(source: string, parse: string -> Double, start: nat, line: int)
    requires start < |source|
    ensures StepFacts(source, start, line, Step(source, parse, start, line))
  {
    if source[start] == '"' {
      StepFactsString(source, parse, start, line);
    } else if source[start] == '\n' {
      StepFactsNewline(source, parse, start, line);
    } else if IsDigit(source[start]) {
      StepFactsNumber(source, parse, start, line);
    } else if IsAlpha(source[start]) {
      StepFactsIdentifier(source, parse, start, line);
    } else {
      StepFactsSymbol(source, parse, start, line);
    }
  }

  /** `!`, `=`, `<`, `>` followed by `=` give the two-character kind and
      consume both characters; otherwise the one-character kind. */
  lemma OperatorLookahead(source: string, parse: string -> Double, start: nat, line: int, one: TokenType, two: TokenType)
    requires start < |source|
    requires || (source[start] == '!' && one == BANG && two == BANG_EQUAL)
             || (source[start] == '=' && one == EQUAL && two == EQUAL_EQUAL)
             || (source[start] == '<' && one == LESS && two == LESS_EQUAL)
             || (source[start] == '>' && one == GREATER && two == GREATER_EQUAL)
    ensures var r := Step(source, parse, start, line);
            && r.error.None? && r.token.Some?
            && if start + 1 < |source| && source[start + 1] == '='
               then r.end == start + 2 && r.token.value.kind == two
               else r.end == start + 1 && r.token.value.kind == one
  {
  }

  /** `//` skips up to, not including, the next newline and adds no token;
      a lone `/` is SLASH. */
  lemma Slash(source: string, parse: string -> Double, start: nat, line: int)
    requires start < |source| && source[start] == '/'
    ensures var r := Step(source, parse, start, line);
            && r.error.None? && r.line == line
            && if start + 1 < |source| && source[start + 1] == '/' then
                 && r.token.None?
                 && (r.end == |source| || source[r.end] == '\n')
                 && forall k :: start <= k < r.end ==> source[k] != '\n'
               else
                 r.end == start + 1 && r.token == Some(Token(SLASH, "/", Nil, line))
  {
    if !(start + 1 < |source| && source[start + 1] == '/') {
      assert source[start..start + 1] == "/";
    }
  }

  /** A closed string literal gives a STRING token whose literal is the text
      strictly between the quotes; an unterminated one reports an error, adds
      no token and consumes the rest of the source. */
  lemma StringLiteral(source: string, parse: string -> Double, start: nat, line: int)
    requires start < |source| && source[start] == '"'
    ensures var r := Step(source, parse, start, line);
            if exists k :: start < k < |source| && source[k] == '"' then
              && start + 2 <= r.end && source[r.end - 1] == '"'
              && (forall k :: start < k < r.end - 1 ==> source[k] != '"')
              && r.error.None?
              && r.token == Some(Token(STRING, source[start..r.end], Str(source[start + 1..r.end - 1]), r.line))
            else
              && r.end == |source| && r.token.None?
              && r.error == Some(Diagnostic(r.line, "", "Unterminated string."))
  {
    var close := SkipWhile(source, start + 1, NotQuote);
    if exists k :: start < k < |source| && source[k] == '"' {
      var k :| start < k < |source| && source[k] == '"';
      assert !NotQuote(source[k]);
      assert close < |source|;
    }
  }

  /** A number lexeme is a maximal digit run, optionally followed by `.` and
      at least one digit; a dot with no digit after it is left unconsumed. */
  lemma NumberLiteral(source: string, parse: string -> Double, start: nat, line: int)
    requires start < |source| && IsDigit(source[start])
    ensures var r := Step(source, parse, start, line);
            var text := source[start..r.end];
            && r.error.None?
            && r.token == Some(Token(NUMBER, text, Num(parse(text)), line))
            && IsNumberLexeme(text)
            && (r.end < |source| ==> !IsDigit(source[r.end]))
            && (AllDigits(text) && Matches(source, r.end, '.') ==> !(r.end + 1 < |source| && IsDigit(source[r.end + 1])))
  {
    var r := Step(source, parse, start, line);
    var text := source[start..r.end];
    var intEnd := SkipWhile(source, start + 1, IsDigit);
    assert AllDigits(source[start..intEnd]);
    if Matches(source, intEnd, '.') && intEnd + 1 < |source| && IsDigit(source[intEnd + 1]) {
      var d := intEnd - start;
      assert text[d] == '.';
      assert text[..d] == source[start..intEnd];
      assert AllDigits(text[d + 1..]);
      assert !AllDigits(text) by { assert !IsDigit(text[d]); }
    } else {
      assert text == source[start..intEnd];
    }
  }

  /** An identifier is a maximal `[A-Za-z_][A-Za-z0-9_]*` run; its kind is
      the reserved word's kind when the text is in the table, else IDENTIFIER. */
  lemma IdentifierLiteral(source: string, parse: string -> Double, start: nat, line: int)
    requires start < |source| && IsAlpha(source[start])
    ensures var r := Step(source, parse, start, line);
            var text := source[start..r.end];
            && r.error.None?
            && IsAlpha(text[0]) && (forall k :: 0 <= k < |text| ==> IsAlphanumeric(text[k]))
            && (r.end == |source| || !IsAlphanumeric(source[r.end]))
            && r.token == Some(Token(if text in Keywords then Keywords[text] else IDENTIFIER, text, Nil, line))
  {
    assert !IsDigit(source[start]);
  }

  /** The word a reserved-word kind is spelled with. */
  function ReservedWord(kind: TokenType): string
  {
    match kind
    case AND => "and" case CLASS => "class" case ELSE => "else" case FALSE => "false"
    case FOR => "for" case FUN => "fun" case IF => "if" case NIL => "nil"
    case OR => "or" case PRINT => "print" case RETURN => "return" case SUPER => "super"
    case THIS => "this" case TRUE => "true" case VAR => "var" case WHILE => "while"
    case _ => ""
  }

  /** Every reserved word has a kind of its own, which reads back as the
      word, and none of them is IDENTIFIER or EOF. */
  lemma KeywordTable()
    ensures IDENTIFIER !in Keywords.Values && EOF !in Keywords.Values
    ensures forall w <- Keywords :: ReservedWord(Keywords[w]) == w
    ensures forall w <- Keywords, v <- Keywords :: w != v ==> Keywords[w] != Keywords[v]
  {
  }

  /** Any other character is reported, adds no token and is skipped. */
  lemma UnexpectedCharacter(source: string, parse: string -> Double, start: nat, line: int)
    requires start < |source|
    requires source[start] !in "(){},.-+;*!=<>/ \r\t\n\""
    requires !IsDigit(source[start]) && !IsAlpha(source[start])
    ensures Step(source, parse, start, line) == Stepped(start + 1, line, None, Some(Diagnostic(line, "", "Unexpected character.")))
  {
  }

  /** The tokens end with exactly one EOF token, with empty lexeme and no
      literal, on `line` plus the newlines after `current`; no other token is
      EOF. */
  ghost predicate EndsWithEof(source: string, current: nat, line: int, tokens: seq<Token>)
    requires current <= |source|
  {
    && |tokens| > 0
    && tokens[|tokens| - 1] == Token(EOF, "", Nil, line + Newlines(source[current..]))
    && forall i :: 0 <= i < |tokens| - 1 ==> tokens[i].kind != EOF
  }

  /** One step in front of tokens that end with EOF keeps them ending with EOF. */
  lemma EofCons(source: string, current: nat, line: int, st: Stepped, rest: seq<Token>)
    requires current < |source| && StepFacts(source, current, line, st)
    requires EndsWithEof(source, st.end, st.line, rest)
    ensures EndsWithEof(source, current, line, OptionToSeq(st.token) + rest)
  {
    NewlinesSplit(source, current, st.end, |source|);
    assert source[current..] == source[current..|source|];
    assert source[st.end..] == source[st.end..|source|];
    var all := OptionToSeq(st.token) + rest;
    forall i | 0 <= i < |all| - 1
      ensures all[i].kind != EOF
    {
      if st.token.Some? && i > 0 {
        assert all[i] == rest[i - 1];
      }
    }
  }

  lemma {:induction false} ScanEndsWithEof(source: string, parse: string -> Double, current: nat, line: int)
    requires current <= |source|
    ensures EndsWithEof(source, current, line, ScanFrom(source, parse, current, line).tokens)
    decreases |source| - current
  {
    if current < |source| {
      var st := Step(source, parse, current, line);
      StepWellFormed(source, parse, current, line);
      ScanFromStep(source, parse, current, line, st);
      ScanEndsWithEof(source, parse, st.end, st.line);
      EofCons(source, current, line, st, ScanFrom(source, parse, st.end, st.line).tokens);
    }
  }

  /** A token and its span: the span lies in the source after `current`,
      the token's text is the span's text and its line is `line` plus the
      newlines from `current` to the end of the span. */
  ghost predicate SpanAgrees(source: string, current: nat, line: int, t: Token, sp: Span)
  {
    && current <= sp.start <= sp.end <= |source|
    && t.lexeme == source[sp.start..sp.end]
    && t.line == line + Newlines(source[current..sp.end])
  }

  /** Each token agrees with its span, and spans lie in source order without
      overlapping. */
  ghost predicate SpansAgree(source: string, current: nat, line: int, s: Scanned)
  {
    && |s.spans| == |s.tokens|
    && (forall i :: 0 <= i < |s.spans| ==> SpanAgrees(source, current, line, s.tokens[i], s.spans[i]))
    && (forall i :: 0 <= i < |s.spans| - 1 ==> s.spans[i].end <= s.spans[i + 1].start)
  }

  /** A span that agrees from a later position agrees from an earlier one. */
  lemma SpanAgreesEarlier(source: string, current: nat, line: int, next: nat, nextLine: int, t: Token, sp: Span)
    requires current <= next <= |source| && nextLine == line + Newlines(source[current..next])
    requires SpanAgrees(source, next, nextLine, t, sp)
    ensures SpanAgrees(source, current, line, t, sp)
  {
    NewlinesSplit(source, current, next, sp.end);
  }

  /** A token's span in front of spans that agree from where it ends. */
  lemma SpansConsToken(source: string, current: nat, line: int, st: Stepped, rest: Scanned, s: Scanned)
    requires current < |source| && StepFacts(source, current, line, st) && st.token.Some?
    requires SpansAgree(source, st.end, st.line, rest)
    requires s.tokens == [st.token.value] + rest.tokens
    requires s.spans == [Span(current, st.end)] + rest.spans
    ensures SpansAgree(source, current, line, s)
  {
    forall i | 0 <= i < |s.spans|
      ensures SpanAgrees(source, current, line, s.tokens[i], s.spans[i])
    {
      if i > 0 {
        assert s.spans[i] == rest.spans[i - 1] && s.tokens[i] == rest.tokens[i - 1];
        SpanAgreesEarlier(source, current, line, st.end, st.line, rest.tokens[i - 1], rest.spans[i - 1]);
      }
    }
    forall i | 0 <= i < |s.spans| - 1
      ensures s.spans[i].end <= s.spans[i + 1].start
    {
      assert s.spans[i + 1] == rest.spans[i];
      if i > 0 {
        assert s.spans[i] == rest.spans[i - 1];
      }
    }
  }

  /** A step that adds no token in front of spans that agree from where it ends. */
  lemma SpansConsSkip(source: string, current: nat, line: int, st: Stepped, rest: Scanned)
    requires current < |source| && StepFacts(source, current, line, st)
    requires SpansAgree(source, st.end, st.line, rest)
    ensures SpansAgree(source, current, line, rest)
  {
    forall i | 0 <= i < |rest.spans|
      ensures SpanAgrees(source, current, line, rest.tokens[i], rest.spans[i])
    {
      SpanAgreesEarlier(source, current, line, st.end, st.line, rest.tokens[i], rest.spans[i]);
    }
  }

  lemma {:induction false} ScanSpans(source: string, parse: string -> Double, current: nat, line: int)
    requires current <= |source|
    ensures SpansAgree(source, current, line, ScanFrom(source, parse, current, line))
    decreases |source| - current
  {
    if current < |source| {
      var st := Step(source, parse, current, line);
      StepWellFormed(source, parse, current, line);
      ScanFromStep(source, parse, current, line, st);
      ScanSpans(source, parse, st.end, st.line);
      var rest := ScanFrom(source, parse, st.end, st.line);
      if st.token.Some? {
        SpansConsToken(source, current, line, st, rest, ScanFrom(source, parse, current, line));
      } else {
        SpansConsSkip(source, current, line, st, rest);
      }
    }
  }

  /** A scan reports only the two lexical errors of the source. */
  lemma {:induction false} ScanErrors(source: string, parse: string -> Double, current: nat, line: int)
    requires current <= |source|
    ensures var s := ScanFrom(source, parse, current, line);
            forall i :: 0 <= i < |s.errors| ==>
              s.errors[i].where == "" && s.errors[i].message in {"Unexpected character.", "Unterminated string."}
    decreases |source| - current
  {
    if current < |source| {
      var st := Step(source, parse, current, line);
      StepWellFormed(source, parse, current, line);
      ScanFromStep(source, parse, current, line, st);
      ScanErrors(source, parse, st.end, st.line);
    }
  }

  class Scanner {
    const source: string
    const parseDouble: string -> Double
    var tokens: seq<Token>
    var start: nat
    var current: nat
    var line: int
    /** The `Lox.error(line, message)` reports made so far. */
    var errors: seq<Diagnostic>

    /** The cursor is inside the source and `line` counts the newlines consumed. */
    ghost predicate Valid()
      reads this
    {
      start <= current <= |source| && line == 1 + Newlines(source[..current])
    }

    constructor (source: string, parseDouble: string -> Double)
      ensures Valid()
      ensures this.source == source && this.parseDouble == parseDouble
      ensures tokens == [] && errors == [] && start == 0 && current == 0 && line == 1
    {
      this.source := source;
      this.parseDouble := parseDouble;
      tokens := [];
      errors := [];
      start, current, line := 0, 0, 1;
    }

    /** Nothing is left to scan. */
    function IsAtEnd(): (b: bool)
      reads this
      ensures b <==> current > |source| || source[current..] == []
    {
      current >= |source|
    }

    /** The character at the cursor, or `'\0'` once the source is used up. */
    function Peek(): (c: char)
      reads this
      ensures current < |source| ==> c == source[current]
      ensures IsAtEnd() ==> c == '\0'
    {
      if IsAtEnd() then '\0' else source[current]
    }

    /** The character after the cursor, or `'\0'` past the end. */
    function PeekNext(): (c: char)
      reads this
      ensures current + 1 < |source| ==> c == source[current + 1]
      ensures current + 1 >= |source| ==> c == '\0'
    {
      if |source| <= current + 1 then '\0' else source[current + 1]
    }

    method Advance() returns (c: char)
      requires current < |source|
      modifies this`current
      ensures current == old(current) + 1 && c == source[old(current)]
    {
      current := current + 1;
      c := source[current - 1];
    }

    method Match(expected: char) returns (matched: bool)
      modifies this`current
      ensures matched == Matches(source, old(current), expected)
      ensures current == if matched then old(current) + 1 else old(current)
    {
      if IsAtEnd() { return false; }
      if source[current] != expected { return false; }
      current := current + 1;
      return true;
    }

    method AddToken(kind: TokenType, literal: Value)
      requires start <= current <= |source|
      modifies this`tokens
      ensures tokens == old(tokens) + [Token(kind, source[start..current], literal, line)]
    {
      var text := source[start..current];
      tokens := tokens + [Token(kind, text, literal, line)];
    }

    method Error(message: string)
      modifies this`errors
      ensures errors == old(errors) + [Diagnostic(line, "", message)]
    {
      errors := errors + [Diagnostic(line, "", message)];
    }

    /** Scans the whole source and appends the end-of-input token. */
    method ScanTokens() returns (result: seq<Token>)
      requires Valid()
      modifies this
      ensures Valid()
      ensures var s := ScanFrom(source, parseDouble, old(current), old(line));
              tokens == old(tokens) + s.tokens && errors == old(errors) + s.errors
      ensures result == tokens
    {
      ghost var total := ScanFrom(source, parseDouble, current, line);
      while !IsAtEnd()
        invariant Valid()
        invariant var rest := ScanFrom(source, parseDouble, current, line);
                  old(tokens) + total.tokens == tokens + rest.tokens
                  && old(errors) + total.errors == errors + rest.errors
        decreases |source| - current
      {
        start := current;
        ghost var t, e, l := tokens, errors, line;
        ghost var st := Step(source, parseDouble, current, line);
        ScanFromStep(source, parseDouble, current, line, st);
        ScanToken();
        StepWellFormed(source, parseDouble, start, l);
        NewlinesSplit(source, 0, start, current);
        ghost var rest := ScanFrom(source, parseDouble, current, line);
        Associative(t, OptionToSeq(st.token), rest.tokens);
        Associative(e, OptionToSeq(st.error), rest.errors);
      }
      tokens := tokens + [Token(EOF, "", Nil, line)];
      result := tokens;
    }

    /** One step of the scan: consumes at least one character. */
    method ScanToken()
      requires start == current < |source|
      modifies this`current, this`line, this`tokens, this`errors
      ensures current == Step(source, parseDouble, old(current), old(line)).end
      ensures line == Step(source, parseDouble, old(current), old(line)).line
      ensures tokens == old(tokens) + OptionToSeq(Step(source, parseDouble, old(current), old(line)).token)
      ensures errors == old(errors) + OptionToSeq(Step(source, parseDouble, old(current), old(line)).error)
    {
      var c := Advance();
      match c {
      // kinds that are always one character long
      case '(' | ')' | '{' | '}' | ',' | '.' | '-' | '+' | ';' | '*' =>
        AddToken(SingleKind(c), Nil);
      // kinds that take a following '=' when there is one
      case '!' | '=' | '<' | '>' =>
        var m := Match('=');
        AddToken(OperatorKind(c, m), Nil);
      case '/' => Slash();
      case ' ' | '\r' | '\t' =>
      case '\n' => line := line + 1;
      case '"' => String();
      case _ => Default(c);
      }
    }

    /** The `/` case: a comment up to the end of the line, or SLASH. */
    method Slash()
      requires start < current == start + 1 <= |source| && source[start] == '/'
      modifies this`current, this`tokens
      ensures current == Step(source, parseDouble, start, line).end
      ensures tokens == old(tokens) + OptionToSeq(Step(source, parseDouble, start, line).token)
      ensures Step(source, parseDouble, start, line).line == line && Step(source, parseDouble, start, line).error.None?
    {
      var m := Match('/');
      if m {
        // skip up to the newline, which the next step consumes
        AdvanceWhile(NotNewline);
      } else {
        AddToken(SLASH, Nil);
      }
    }

    /** The `default` case: a number, an identifier or an unexpected character. */
    method Default(c: char)
      requires start < current == start + 1 <= |source| && source[start] == c
      requires !IsSingleChar(c) && !IsOperatorChar(c) && c !in "/ \r\t\n\""
      modifies this`current, this`tokens, this`errors
      ensures current == Step(source, parseDouble, start, line).end
      ensures Step(source, parseDouble, start, line).line == line
      ensures tokens == old(tokens) + OptionToSeq(Step(source, parseDouble, start, line).token)
      ensures errors == old(errors) + OptionToSeq(Step(source, parseDouble, start, line).error)
    {
      if IsDigit(c) {
        Number();
      } else if IsAlpha(c) {
        Identifier();
      } else {
        Error("Unexpected character.");
      }
    }

    method String()
      requires start < |source| && source[start] == '"' && current == start + 1
      modifies this`current, this`line, this`tokens, this`errors
      ensures var st := StringStep(source, start, old(line));
              current == st.end && line == st.line
              && tokens == old(tokens) + OptionToSeq(st.token)
              && errors == old(errors) + OptionToSeq(st.error)
    {
      AdvanceToQuote();
      if IsAtEnd() {
        Error("Unterminated string.");
        return;
      }
      // consume the quote that ends the string
      var _ := Advance();
      // the literal excludes both quotes
      var value := source[start + 1..current - 1];
      AddToken(STRING, Str(value));
    }

    /** The loop of `string()`: advances to the closing quote or the end,
        counting the newlines inside the literal. */
    method AdvanceToQuote()
      requires current <= |source|
      modifies this`current, this`line
      ensures current == SkipWhile(source, old(current), NotQuote)
      ensures line == old(line) + Newlines(source[old(current)..current])
    {
      ghost var close := SkipWhile(source, current, NotQuote);
      while Peek() != '"' && !IsAtEnd()
        invariant old(current) <= current <= close
        invariant line == old(line) + Newlines(source[old(current)..current])
        decreases |source| - current
      {
        if Peek() == '\n' {
          line := line + 1;
        }
        NewlinesExtend(source, old(current), current);
        var _ := Advance();
      }
    }

    /** The scanner's `while (p(peek()) && !isAtEnd()) advance();` loops
        (over digits, identifier characters and comment text). Because
        `peek()` gives '\0' at the end, the digit and identifier loops that
        test only `p(peek())` stop at the same place. */
    method AdvanceWhile(p: char -> bool)
      requires current <= |source|
      modifies this`current
      ensures current == SkipWhile(source, old(current), p)
    {
      while p(Peek()) && !IsAtEnd()
        invariant old(current) <= current <= |source|
        invariant forall k :: old(current) <= k < current ==> p(source[k])
        decreases |source| - current
      {
        var _ := Advance();
      }
      SkipWhileAt(source, old(current), p, current);
    }

    method Number()
      requires start < current == start + 1 <= |source| && IsDigit(source[start])
      modifies this`current, this`tokens
      ensures current == NumberEnd(source, start + 1)
      ensures tokens == old(tokens) + [Token(NUMBER, source[start..current], Num(parseDouble(source[start..current])), line)]
    {
      AdvanceWhile(IsDigit);
      // an optional '.' with at least one digit after it
      if Peek() == '.' && IsDigit(PeekNext()) {
        var _ := Advance(); // the decimal point
        AdvanceWhile(IsDigit);
      }
      AddToken(NUMBER, Num(parseDouble(source[start..current])));
    }

    method Identifier()
      requires start < current == start + 1 <= |source|
      modifies this`current, this`tokens
      ensures current == SkipWhile(source, start + 1, IsAlphanumeric)
      ensures tokens == old(tokens) + [Token(IdentifierKind(source[start..current]), source[start..current], Nil, line)]
    {
      AdvanceWhile(IsAlphanumeric);
      var text := source[start..current];
      var kind := if text in Keywords then Keywords[text] else IDENTIFIER;
      AddToken(kind, Nil);
    }
  }
}
