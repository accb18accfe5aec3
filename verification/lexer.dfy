/**
 * The character stream and the lexer of week 4 (week4/project/parse.js).
 * The stream tracks a position, a line and a column; the lexer turns the
 * stream into tokens as a grammar describes them and caches one token for
 * `peek`.
 */
module Lexer {
  import opened JsCore

  /** `str.charAt(pos)`: a one-character string, or "" past the end. */
  function CharAt(s: string, pos: nat): (ch: string)
    ensures |ch| <= 1
    ensures ch == "" <==> pos >= |s|
  {
    if pos < |s| then [s[pos]] else ""
  }

  /** A stream position: the index of the next character, its line (from 1)
      and its column (from 0). */
  datatype Cursor = Cursor(pos: nat, line: nat, col: nat)

  /** What one `next` does to the position. */
  function Advance(s: string, c: Cursor): (d: Cursor)
    ensures d.pos == c.pos + 1
  {
    if CharAt(s, c.pos) == "\n" then Cursor(c.pos + 1, c.line + 1, 0)
    else Cursor(c.pos + 1, c.line, c.col + 1)
  }

  /** What n calls of `next` do to the position. */
  function AdvanceBy(s: string, c: Cursor, n: nat): (d: Cursor)
    ensures d.pos == c.pos + n
    decreases n
  {
    if n == 0 then c else AdvanceBy(s, Advance(s, c), n - 1)
  }

  lemma {:induction false} AdvanceByStep(s: string, c: Cursor, n: nat)
    ensures AdvanceBy(s, c, n + 1) == Advance(s, AdvanceBy(s, c, n))
    decreases n
  {
    if n > 0 {
      AdvanceByStep(s, Advance(s, c), n - 1);
    }
  }

  lemma {:induction false} AdvanceByAdd(s: string, c: Cursor, m: nat, n: nat)
    ensures AdvanceBy(s, AdvanceBy(s, c, m), n) == AdvanceBy(s, c, m + n)
    decreases m
  {
    if m > 0 {
      AdvanceByAdd(s, Advance(s, c), m - 1, n);
    }
  }

  /** The number of newlines among the n characters from position p. */
  function Newlines(s: string, p: nat, n: nat): nat
    decreases n
  {
    if n == 0 then 0 else (if CharAt(s, p) == "\n" then 1 else 0) + Newlines(s, p + 1, n - 1)
  }

  /** After n calls of `next` the line has grown by the newlines read, and
      with no newline among them the column has grown by n. */
  lemma {:induction false} AdvanceByCounts(s: string, c: Cursor, n: nat)
    ensures AdvanceBy(s, c, n).line == c.line + Newlines(s, c.pos, n)
    ensures Newlines(s, c.pos, n) == 0 ==> AdvanceBy(s, c, n).col == c.col + n
    decreases n
  {
    if n > 0 {
      AdvanceByCounts(s, Advance(s, c), n - 1);
    }
  }

  /** `InputStream`. */
  class InputStream {
    const str: string
    var pos: nat
    var line: nat
    var col: nat

    function Position(): Cursor
      reads this
    {
      Cursor(pos, line, col)
    }

    constructor (str: string)
      ensures this.str == str
      ensures Position() == Cursor(0, 1, 0)
    {
      this.str := str;
      pos := 0;
      line := 1;
      col := 0;
    }

    /** `next`: the character at the position, which moves by one. */
    method Next() returns (ch: string)
      modifies this
      ensures ch == CharAt(str, old(pos))
      ensures Position() == Advance(str, old(Position()))
    {
      ch := CharAt(str, pos);
      pos := pos + 1;
      if ch == "\n" {
        line := line + 1;
        col := 0;
      } else {
        col := col + 1;
      }
    }

    /** `peek`: the character at the position; nothing changes. */
    method Peek() returns (ch: string)
      ensures ch == CharAt(str, pos)
    {
      ch := CharAt(str, pos);
    }

    /** `eof`: whether `peek` gives the empty string. */
    method Eof() returns (b: bool)
      ensures b <==> pos >= |str|
    {
      var ch := Peek();
      b := ch == "";
    }
  }

  // ---------------------------------------------------------------------------
  // Grammar and tokens
  // ---------------------------------------------------------------------------

  /** The grammar fields the lexer reads. */
  datatype Grammar = Grammar(keywords: string, validIdentChars: string, operators: string, comment: string)

  datatype Token =
    | NumberTok(value: int)
    | KeywordTok(name: string)
    | IdentTok(name: string)
    | PuncTok(text: string)
    | OperatorTok(text: string)

  /** The error `readNext` throws on a character no rule accepts. */
  datatype LexError = Unexpected(ch: string)

  /** The validators `readWhile` is called with. */
  datatype CharClass = Digits | IdentChars | Whitespace

  predicate InClass(g: Grammar, cls: CharClass, c: char)
  {
    match cls
    case Digits => IsDigit(c)
    case IdentChars => Contains(g.validIdentChars, [c])
    case Whitespace => c == ' ' || c == '\n' || c == '\t'
  }

  predicate IsPunc(c: char) { c == '(' || c == ')' }

  predicate IsOperator(g: Grammar, c: char) { Contains(g.operators, [c]) }

  /** `isKeyword`: the identifier with a space on each side occurs in the keywords. */
  predicate IsKeyword(g: Grammar, id: string)
  {
    Contains(g.keywords, " " + id + " ")
  }

  /** The run of characters of the class that starts at pos. */
  function RunText(g: Grammar, cls: CharClass, s: string, pos: nat): (t: string)
    ensures forall i :: 0 <= i < |t| ==> InClass(g, cls, t[i])
    decreases |s| - pos
  {
    if pos < |s| && InClass(g, cls, s[pos]) then [s[pos]] + RunText(g, cls, s, pos + 1) else ""
  }

  /** Reading one more character of the class extends the run read so far. */
  lemma RunTextStep(g: Grammar, cls: CharClass, s: string, from: nat, p: nat, str: string, ch: string)
    requires p < |s| && InClass(g, cls, s[p]) && ch == CharAt(s, p)
    requires RunText(g, cls, s, from) == str + RunText(g, cls, s, p)
    ensures RunText(g, cls, s, from) == (str + ch) + RunText(g, cls, s, p + 1)
  {
    assert RunText(g, cls, s, p) == ch + RunText(g, cls, s, p + 1);
    assert str + (ch + RunText(g, cls, s, p + 1)) == (str + ch) + RunText(g, cls, s, p + 1);
  }

  /** The first newline at or after pos, or the end. */
  function CommentEnd(s: string, pos: nat): (e: nat)
    ensures pos <= e
    ensures pos <= |s| ==> e <= |s|
    decreases |s| - pos
  {
    if pos < |s| && s[pos] != '\n' then CommentEnd(s, pos + 1) else pos
  }

  /** What `readNext` returns (null is `Ok(None)`) and where it leaves the stream. */
  datatype Lexed = Lexed(outcome: Result<Option<Token>, LexError>, after: Cursor)

  /** Where `readWhile('isWhitespace')` leaves the stream. */
  function SkipSpace(g: Grammar, s: string, c: Cursor): Cursor
  {
    AdvanceBy(s, c, |RunText(g, Whitespace, s, c.pos)|)
  }

  /** Where `skipComment` leaves the stream. */
  function SkipLine(s: string, c: Cursor): Cursor
  {
    AdvanceBy(s, c, CommentEnd(s, c.pos) - c.pos + 1)
  }

  /** The token read at a character that is not the comment marker: a digit
      gives a number, an identifier character a keyword or an identifier,
      then a parenthesis, then an operator; anything else throws. */
  function TokenAt(g: Grammar, s: string, c: Cursor): Lexed
    requires c.pos < |s|
  {
    var ch := s[c.pos];
    if IsDigit(ch) then
      var t := RunText(g, Digits, s, c.pos);
      Lexed(Ok(Some(NumberTok(DecimalValue(t)))), AdvanceBy(s, c, |t|))
    else if InClass(g, IdentChars, ch) then
      var t := RunText(g, IdentChars, s, c.pos);
      Lexed(Ok(Some(if IsKeyword(g, t) then KeywordTok(t) else IdentTok(t))), AdvanceBy(s, c, |t|))
    else if IsPunc(ch) then Lexed(Ok(Some(PuncTok([ch]))), Advance(s, c))
    else if IsOperator(g, ch) then Lexed(Ok(Some(OperatorTok([ch]))), Advance(s, c))
    else Lexed(Err(Unexpected([ch])), c)
  }

  /** `readNext` from position c: skip whitespace; at the end give null; at
      the comment marker skip the line and read on; otherwise read a token. */
  function ReadNextSpec(g: Grammar, s: string, c: Cursor): Lexed
    decreases |s| + 1 - c.pos
  {
    var c1 := SkipSpace(g, s, c);
    if c1.pos >= |s| then Lexed(Ok(None), c1)
    else if [s[c1.pos]] == g.comment then ReadNextSpec(g, s, SkipLine(s, c1))
    else TokenAt(g, s, c1)
  }

  /** The lexer's state: the stream position and the cached token. */
  datatype LexState = LexState(cursor: Cursor, current: Option<Token>)

  /** `peek`: the cached token, or read one and cache it. */
  function PeekSpec(g: Grammar, s: string, st: LexState): (Result<Option<Token>, LexError>, LexState)
  {
    if st.current.Some? then (Ok(st.current), st)
    else
      var l := ReadNextSpec(g, s, st.cursor);
      (l.outcome, LexState(l.after, if l.outcome.Ok? then l.outcome.value else None))
  }

  /** `next`: hand out and clear the cached token, or read one. */
  function NextSpec(g: Grammar, s: string, st: LexState): (Result<Option<Token>, LexError>, LexState)
  {
    if st.current.Some? then (Ok(st.current), LexState(st.cursor, None))
    else
      var l := ReadNextSpec(g, s, st.cursor);
      (l.outcome, LexState(l.after, None))
  }

  /** `eof`: whether `peek` gives null. */
  function EofSpec(g: Grammar, s: string, st: LexState): (Result<bool, LexError>, LexState)
  {
    var (r, st') := PeekSpec(g, s, st);
    (if r.Ok? then Ok(r.value.None?) else Err(r.error), st')
  }

  // ---------------------------------------------------------------------------
  // The lexer
  // ---------------------------------------------------------------------------

  class Lexer {
    const grammar: Grammar
    const input: InputStream
    var current: Option<Token>

    function State(): LexState
      reads this, input
    {
      LexState(input.Position(), current)
    }

    constructor (grammar: Grammar, str: string)
      ensures this.grammar == grammar && input.str == str
      ensures State() == LexState(Cursor(0, 1, 0), None)
      ensures fresh(input)
    {
      this.grammar := grammar;
      input := new InputStream(str);
      current := None;
    }

    /** The loop condition of `readWhile`: not at the end, and the next
        character is of the class. */
    method Continues(cls: CharClass) returns (b: bool)
      ensures b <==> input.pos < |input.str| && InClass(grammar, cls, input.str[input.pos])
    {
      var e := input.Eof();
      if e {
        return false;
      }
      var ch := input.Peek();
      b := InClass(grammar, cls, ch[0]);
    }

    /** `readWhile`: consume and return the run of characters of the class. */
    method ReadWhile(cls: CharClass) returns (str: string)
      modifies input
      ensures str == RunText(grammar, cls, input.str, old(input.pos))
      ensures input.Position() == AdvanceBy(input.str, old(input.Position()), |str|)
    {
      ghost var s := input.str;
      ghost var start := input.Position();
      str := "";
      var more := Continues(cls);
      while more
        invariant input.Position() == AdvanceBy(s, start, |str|)
        invariant RunText(grammar, cls, s, start.pos) == str + RunText(grammar, cls, s, input.pos)
        invariant more <==> input.pos < |s| && InClass(grammar, cls, s[input.pos])
        decreases |s| - input.pos
      {
        ghost var p := input.pos;
        var ch := input.Next();
        AdvanceByStep(s, start, |str|);
        RunTextStep(grammar, cls, s, start.pos, p, str, ch);
        str := str + ch;
        more := Continues(cls);
      }
    }

    /** `readNumber`: a digit run and its `parseInt`. */
    method ReadNumber() returns (t: Token)
      requires input.pos < |input.str| && IsDigit(input.str[input.pos])
      modifies input
      ensures var text := RunText(grammar, Digits, input.str, old(input.pos));
              t == NumberTok(DecimalValue(text))
              && input.Position() == AdvanceBy(input.str, old(input.Position()), |text|)
    {
      var number := ReadWhile(Digits);
      DigitRunParse(grammar, input.str, old(input.pos));
      t := NumberTok(ParseInt(number).value);
    }

    /** `readIdent`: an identifier run, a keyword when the grammar lists it. */
    method ReadIdent() returns (t: Token)
      modifies input
      ensures var text := RunText(grammar, IdentChars, input.str, old(input.pos));
              t == (if IsKeyword(grammar, text) then KeywordTok(text) else IdentTok(text))
              && input.Position() == AdvanceBy(input.str, old(input.Position()), |text|)
    {
      var id := ReadWhile(IdentChars);
      t := if IsKeyword(grammar, id) then KeywordTok(id) else IdentTok(id);
    }

    /** `skipComment`: consume up to and including the next newline. */
    method SkipComment()
      modifies input
      ensures input.Position()
           == AdvanceBy(input.str, old(input.Position()), CommentEnd(input.str, old(input.pos)) - old(input.pos) + 1)
    {
      ghost var s := input.str;
      ghost var start := input.Position();
      var e := input.Eof();
      var ch := input.Peek();
      while !e && ch != "\n"
        invariant start.pos <= input.pos
        invariant input.Position() == AdvanceBy(s, start, input.pos - start.pos)
        invariant CommentEnd(s, start.pos) == CommentEnd(s, input.pos)
        invariant e <==> input.pos >= |s|
        invariant ch == CharAt(s, input.pos)
        decreases |s| - input.pos
      {
        AdvanceByStep(s, start, input.pos - start.pos);
        var _ := input.Next();
        e := input.Eof();
        ch := input.Peek();
      }
      AdvanceByStep(s, start, input.pos - start.pos);
      var _ := input.Next();
    }

    /** The token rules of `readNext`, after whitespace and comments. */
    method ReadToken() returns (r: Result<Option<Token>, LexError>)
      requires input.pos < |input.str| && [input.str[input.pos]] != grammar.comment
      modifies input
      ensures Lexed(r, input.Position()) == TokenAt(grammar, input.str, old(input.Position()))
    {
      var ch := input.Peek();
      if IsDigit(ch[0]) {
        var t := ReadNumber();
        return Ok(Some(t));
      }
      if InClass(grammar, IdentChars, ch[0]) {
        var t := ReadIdent();
        return Ok(Some(t));
      }
      if IsPunc(ch[0]) {
        var p := input.Next();
        return Ok(Some(PuncTok(p)));
      }
      if IsOperator(grammar, ch[0]) {
        var o := input.Next();
        return Ok(Some(OperatorTok(o)));
      }
      var bad := input.Peek();
      return Err(Unexpected(bad));
    }

    /** `readNext`. */
    method ReadNext() returns (r: Result<Option<Token>, LexError>)
      modifies input
      ensures Lexed(r, input.Position()) == ReadNextSpec(grammar, input.str, old(input.Position()))
      decreases |input.str| + 1 - input.pos
    {
      var _ := ReadWhile(Whitespace);
      var e := input.Eof();
      if e {
        return Ok(None);
      }
      var ch := input.Peek();
      if ch == grammar.comment {
        SkipComment();
        r := ReadNext();
        return;
      }
      r := ReadToken();
    }

    /** `peek`. */
    method Peek() returns (r: Result<Option<Token>, LexError>)
      modifies this, input
      ensures (r, State()) == PeekSpec(grammar, input.str, old(State()))
    {
      if current.Some? {
        return Ok(current);
      }
      r := ReadNext();
      if r.Ok? {
        current := r.value;
      }
    }

    /** `next`. */
    method Next() returns (r: Result<Option<Token>, LexError>)
      modifies this, input
      ensures (r, State()) == NextSpec(grammar, input.str, old(State()))
    {
      var token := current;
      current := None;
      if token.Some? {
        return Ok(token);
      }
      r := ReadNext();
    }

    /** `eof`. */
    method Eof() returns (r: Result<bool, LexError>)
      modifies this, input
      ensures (r, State()) == EofSpec(grammar, input.str, old(State()))
    {
      var p := Peek();
      r := if p.Ok? then Ok(p.value.None?) else Err(p.error);
    }
  }

  // ---------------------------------------------------------------------------
  // Properties
  // ---------------------------------------------------------------------------

  /** `readWhile` reads a maximal run: every character of it is of the class,
      and it stops at the end or at the first character that is not. */
  lemma {:induction false} RunMaximal(g: Grammar, cls: CharClass, s: string, pos: nat)
    ensures var n := |RunText(g, cls, s, pos)|;
            pos + n >= |s| || !InClass(g, cls, s[pos + n])
    decreases |s| - pos
  {
    if pos < |s| && InClass(g, cls, s[pos]) {
      RunMaximal(g, cls, s, pos + 1);
    }
  }

  /** The run is the slice of the input it was read from. */
  lemma {:induction false} RunTextIsSlice(g: Grammar, cls: CharClass, s: string, pos: nat)
    ensures var t := RunText(g, cls, s, pos);
            |t| > 0 ==> pos + |t| <= |s| && t == s[pos..pos + |t|]
    decreases |s| - pos
  {
    if pos < |s| && InClass(g, cls, s[pos]) {
      RunTextIsSlice(g, cls, s, pos + 1);
      var rest := RunText(g, cls, s, pos + 1);
      if |rest| > 0 {
        assert [s[pos]] + s[pos + 1..pos + 1 + |rest|] == s[pos..pos + 1 + |rest|];
      }
    }
  }

  /** A number token's value is `parseInt` of its digit run. */
  lemma DigitRunParse(g: Grammar, s: string, pos: nat)
    requires pos < |s| && IsDigit(s[pos])
    ensures ParseInt(RunText(g, Digits, s, pos)) == Some(DecimalValue(RunText(g, Digits, s, pos)))
  {
    var t := RunText(g, Digits, s, pos);
    ParseIntOfDigits(t);
  }

  /** `skipComment` stops at the first newline after the marker, or at the end. */
  lemma {:induction false} CommentEndIsFirstNewline(s: string, pos: nat)
    requires pos <= |s|
    ensures forall i :: pos <= i < CommentEnd(s, pos) ==> s[i] != '\n'
    ensures CommentEnd(s, pos) == |s| || s[CommentEnd(s, pos)] == '\n'
    decreases |s| - pos
  {
    if pos < |s| && s[pos] != '\n' {
      CommentEndIsFirstNewline(s, pos + 1);
    }
  }

  /** At the end of the input `readNext` gives null and moves nothing. */
  lemma ReadNextAtEnd(g: Grammar, s: string, c: Cursor)
    requires c.pos >= |s|
    ensures ReadNextSpec(g, s, c) == Lexed(Ok(None), c)
  {
  }

  /** The kind of token the rules of `readNext` give for its first character. */
  predicate TokenFrom(g: Grammar, t: Token, ch: char)
  {
    (t.NumberTok? <==> IsDigit(ch))
    && ((t.KeywordTok? || t.IdentTok?) <==> !IsDigit(ch) && InClass(g, IdentChars, ch))
    && (t.PuncTok? <==> !IsDigit(ch) && !InClass(g, IdentChars, ch) && IsPunc(ch))
    && (t.OperatorTok? <==> !IsDigit(ch) && !InClass(g, IdentChars, ch) && !IsPunc(ch) && IsOperator(g, ch))
  }

  /** A token is read from a character that is neither whitespace nor the
      comment marker, and its kind follows the priority of the rules. */
  lemma {:induction false} TokenPriority(g: Grammar, s: string, c: Cursor)
    requires ReadNextSpec(g, s, c).outcome.Ok? && ReadNextSpec(g, s, c).outcome.value.Some?
    ensures exists p :: (c.pos <= p < |s| && !InClass(g, Whitespace, s[p]) && [s[p]] != g.comment
      && TokenFrom(g, ReadNextSpec(g, s, c).outcome.value.value, s[p]))
    decreases |s| + 1 - c.pos
  {
    var c1 := SkipSpace(g, s, c);
    RunMaximal(g, Whitespace, s, c.pos);
    if [s[c1.pos]] == g.comment {
      TokenPriority(g, s, SkipLine(s, c1));
    } else {
      assert TokenFrom(g, ReadNextSpec(g, s, c).outcome.value.value, s[c1.pos]);
    }
  }

  /** An identifier token is a keyword exactly when the grammar lists it. */
  lemma {:induction false} KeywordIff(g: Grammar, s: string, c: Cursor)
    requires ReadNextSpec(g, s, c).outcome.Ok? && ReadNextSpec(g, s, c).outcome.value.Some?
    ensures var t := ReadNextSpec(g, s, c).outcome.value.value;
            (t.KeywordTok? ==> IsKeyword(g, t.name)) && (t.IdentTok? ==> !IsKeyword(g, t.name))
    decreases |s| + 1 - c.pos
  {
    var c1 := SkipSpace(g, s, c);
    if c1.pos < |s| && [s[c1.pos]] == g.comment {
      KeywordIff(g, s, SkipLine(s, c1));
    }
  }

  /** The token rules throw exactly on a character that no rule accepts,
      and then move nothing. */
  lemma TokenAtErrStays(g: Grammar, s: string, c: Cursor)
    requires c.pos < |s|
    ensures TokenAt(g, s, c).outcome.Err? <==>
      var ch := s[c.pos];
      !IsDigit(ch) && !InClass(g, IdentChars, ch) && !IsPunc(ch) && !IsOperator(g, ch)
    ensures TokenAt(g, s, c).outcome.Err? ==>
      TokenAt(g, s, c) == Lexed(Err(Unexpected([s[c.pos]])), c)
  {
  }

  /** When `readNext` gives null or throws, reading again from where it
      stopped gives the same outcome and moves nothing. */
  lemma {:induction false} ReadNextStable(g: Grammar, s: string, c: Cursor)
    requires ReadNextSpec(g, s, c).outcome.Err? || ReadNextSpec(g, s, c).outcome == Ok(None)
    ensures ReadNextSpec(g, s, ReadNextSpec(g, s, c).after) == ReadNextSpec(g, s, c)
    decreases |s| + 1 - c.pos
  {
    var c1 := SkipSpace(g, s, c);
    RunMaximal(g, Whitespace, s, c.pos);
    if c1.pos >= |s| {
      ReadNextAtEnd(g, s, c1);
    } else if [s[c1.pos]] == g.comment {
      ReadNextStable(g, s, SkipLine(s, c1));
    } else {
      assert TokenAt(g, s, c1).outcome.Err?;
      TokenAtErrStays(g, s, c1);
      assert RunText(g, Whitespace, s, c1.pos) == "";
      assert SkipSpace(g, s, c1) == c1;
    }
  }

  /** Repeated `peek` calls give the same result and leave the same state. */
  lemma PeekIdempotent(g: Grammar, s: string, st: LexState)
    ensures PeekSpec(g, s, PeekSpec(g, s, st).1) == PeekSpec(g, s, st)
  {
    if st.current.None? {
      var l := ReadNextSpec(g, s, st.cursor);
      if l.outcome.Err? || l.outcome == Ok(None) {
        ReadNextStable(g, s, st.cursor);
      }
    }
  }

  /** A `peek` followed by `next` gives the token `peek` gave, and leaves the
      lexer as a `next` alone would. */
  lemma PeekThenNext(g: Grammar, s: string, st: LexState)
    ensures NextSpec(g, s, PeekSpec(g, s, st).1).0 == PeekSpec(g, s, st).0
    ensures NextSpec(g, s, PeekSpec(g, s, st).1) == NextSpec(g, s, st)
  {
    if st.current.None? {
      var l := ReadNextSpec(g, s, st.cursor);
      if l.outcome.Err? || l.outcome == Ok(None) {
        ReadNextStable(g, s, st.cursor);
      }
    }
  }
}
