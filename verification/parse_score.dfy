/**
 * The line-oriented score language of week 4 (week4/project/parse-score.js).
 * A line's first token names an operator; the remaining tokens become its
 * arguments. A line whose first token names no operator is dropped.
 */
module ScoreParser {
  import opened JsCore

  /** The entries of the `operators` table. */
  datatype OpName = Notes | Clock | Pattern | Rand | Rest | Sustain | Voice | Speed

  /** The table in its declaration order, which is the order `getOperator` tries. */
  const Operators: seq<OpName> := [Notes, Clock, Pattern, Rand, Rest, Sustain, Voice, Speed]

  function Name(op: OpName): string
  {
    match op
    case Notes => "notes"
    case Clock => "clock"
    case Pattern => "pattern"
    case Rand => "rand"
    case Rest => "rest"
    case Sustain => "sustain"
    case Voice => "voice"
    case Speed => "speed"
  }

  /** The operator's `test`; false for `notes` and `clock`, which have none. */
  predicate Test(op: OpName, x: string)
  {
    match op
    case Notes => false
    case Clock => false
    case Pattern => |x| == 1 && IsLowerLetter(x[0])
    case Rand => x == "*"
    case Rest => x == "."
    case Sustain => x == "-"
    case Voice => x == "|"
    case Speed => StartsWith(x, "@")
  }

  /** The two checks `getOperator` makes against one entry. */
  predicate Matches(op: OpName, x: string)
  {
    ToLower(x) == Name(op) || Test(op, x)
  }

  /** The first entry of ops from position k on that satisfies m. */
  function FirstMatchFrom(ops: seq<OpName>, m: OpName -> bool, k: nat): Option<OpName>
    requires k <= |ops|
    decreases |ops| - k
  {
    if k == |ops| then None
    else if m(ops[k]) then Some(ops[k])
    else FirstMatchFrom(ops, m, k + 1)
  }

  /** `getOperator`'s two checks against one entry, for the token x. */
  function MatcherOf(x: string): OpName -> bool
  {
    op => Matches(op, x)
  }

  /** What `getOperator(x)` returns; None is `false`. */
  function OperatorOf(x: string): Option<OpName>
  {
    FirstMatchFrom(Operators, MatcherOf(x), 0)
  }

  lemma {:induction false} FirstMatchFromIsFirst(ops: seq<OpName>, m: OpName -> bool, k: nat)
    requires k <= |ops|
    ensures FirstMatchFrom(ops, m, k).None? <==> forall j :: k <= j < |ops| ==> !m(ops[j])
    ensures FirstMatchFrom(ops, m, k).Some? ==>
      exists j :: k <= j < |ops| && ops[j] == FirstMatchFrom(ops, m, k).value
                  && m(ops[j]) && forall i :: k <= i < j ==> !m(ops[i])
    decreases |ops| - k
  {
    if k < |ops| && !m(ops[k]) {
      FirstMatchFromIsFirst(ops, m, k + 1);
    }
  }

  /** An entry that satisfies m with none before it from k on is the one found. */
  lemma {:induction false} FirstMatchFromAt(ops: seq<OpName>, m: OpName -> bool, k: nat, j: nat)
    requires k <= j < |ops| && m(ops[j])
    requires forall i :: k <= i < j ==> !m(ops[i])
    ensures FirstMatchFrom(ops, m, k) == Some(ops[j])
    decreases j - k
  {
    if k < j {
      FirstMatchFromAt(ops, m, k + 1, j);
    }
  }

  /** `getOperator` returns the first operator, in declaration order, whose
      name is the lower-cased token or whose test accepts it, and `false`
      when there is none. */
  lemma OperatorOfIsFirst(x: string)
    ensures OperatorOf(x).None? <==> forall op :: !Matches(op, x)
    ensures OperatorOf(x).Some? ==>
      exists j :: 0 <= j < |Operators| && Operators[j] == OperatorOf(x).value
                  && Matches(Operators[j], x)
                  && forall i :: 0 <= i < j ==> !Matches(Operators[i], x)
  {
    FirstMatchFromIsFirst(Operators, MatcherOf(x), 0);
    if OperatorOf(x).None? {
      forall op ensures !Matches(op, x) {
        assert op == Operators[OpIndex(op)];
      }
    }
  }

  function OpIndex(op: OpName): (k: nat)
    ensures k < |Operators| && Operators[k] == op
  {
    match op
    case Notes => 0
    case Clock => 1
    case Pattern => 2
    case Rand => 3
    case Rest => 4
    case Sustain => 5
    case Voice => 6
    case Speed => 7
  }

  /** `getOperator`: the loop over the table with an early return. */
  method GetOperator(x: string) returns (r: Option<OpName>)
    ensures r == OperatorOf(x)
  {
    var k := 0;
    while k < |Operators|
      invariant 0 <= k <= |Operators|
      invariant FirstMatchFrom(Operators, MatcherOf(x), k) == OperatorOf(x)
    {
      var op := Operators[k];
      if ToLower(x) == Name(op) {
        return Some(op);
      }
      if Test(op, x) {
        return Some(op);
      }
      k := k + 1;
    }
    return None;
  }

  // ---------------------------------------------------------------------------
  // Arguments and lines
  // ---------------------------------------------------------------------------

  /** An argument: a number, a string (an operator name, `pattern.<label>` or
      a raw token), or the object `{speed: n}` whose n may be NaN (None). */
  datatype Arg = Num(v: JsNumber) | Text(s: string) | SpeedArg(speed: Option<int>)

  /** A parsed line: its operator, a label for `pattern` lines, and the arguments. */
  datatype ScoreLine = ScoreLine(op: OpName, tag: Option<string>, args: seq<Arg>)

  /** `x.slice(1)`. */
  function SliceFrom1(x: string): string
  {
    if |x| == 0 then "" else x[1..]
  }

  /** The `parse` of the `speed` entry: `Math.max(1, Math.round(parseInt(x.slice(1))))`,
      where a NaN from parseInt stays NaN (None). */
  function SpeedOf(x: string): Option<int>
  {
    match ParseInt(SliceFrom1(x))
    case None => None
    case Some(n) => Some(if n < 1 then 1 else n)
  }

  /** What one argument token becomes; a number is `parseFloat(tok)`. */
  function ArgOf(tok: string): Arg
  {
    match OperatorOf(tok)
    case Some(op) =>
      if op == Speed then SpeedArg(SpeedOf(tok))
      else if op == Pattern then Text(Name(Pattern) + "." + tok)
      else Text(Name(op))
    case None =>
      if ParseInt(tok).Some? then Num(ParseFloat(tok)) else Text(tok)
  }

  /** The `args` limit of an operator (only `clock` has one). */
  function ArgLimit(op: OpName): Option<nat>
  {
    if op == Clock then Some(1) else None
  }

  /** How many tokens after the first are read as arguments. */
  function ArgCount(op: OpName, tokenCount: nat): (n: nat)
    requires tokenCount >= 1
    ensures n <= tokenCount - 1
  {
    match ArgLimit(op)
    case None => tokenCount - 1
    case Some(limit) => if tokenCount - 1 <= limit then tokenCount - 1 else limit
  }

  /** `line.trim().split(/\s+/)`. */
  function Tokens(line: string): (toks: seq<string>)
    ensures |toks| >= 1
    ensures forall k, i :: 0 <= k < |toks| && 0 <= i < |toks[k]| ==> !IsJsSpace(toks[k][i])
  {
    SplitWs(Trim(line))
  }

  /** A line of words separated by whitespace, with any whitespace around
      it, splits into exactly those words. */
  lemma TokensOfWords(lead: string, words: seq<string>, seps: seq<string>, trail: string)
    requires AllSpace(lead) && AllSpace(trail) && WordsAndGaps(words, seps)
    ensures Tokens(lead + JoinWs(words, seps) + trail) == words
  {
    JoinWsEnds(words, seps);
    TrimPadded(lead, JoinWs(words, seps), trail);
    SplitWsWords(words, seps);
  }

  /** The arguments of a line with operator op, read from its tokens. */
  function ArgsOf(op: OpName, toks: seq<string>): (args: seq<Arg>)
    requires |toks| >= 1
    ensures |args| == ArgCount(op, |toks|)
  {
    ArgsUpTo(toks, ArgCount(op, |toks|))
  }

  /** The conversions of tokens 1..n, in order. */
  function ArgsUpTo(toks: seq<string>, n: nat): (args: seq<Arg>)
    requires n < |toks|
    ensures |args| == n
  {
    if n == 0 then [] else ArgsUpTo(toks, n - 1) + [ArgOf(toks[n])]
  }

  lemma {:induction false} ArgsUpToAt(toks: seq<string>, n: nat, k: nat)
    requires k < n < |toks|
    ensures ArgsUpTo(toks, n)[k] == ArgOf(toks[k + 1])
  {
    if k < n - 1 {
      ArgsUpToAt(toks, n - 1, k);
      SnocAt(ArgsUpTo(toks, n - 1), ArgOf(toks[n]), k);
    }
  }

  lemma SnocAt<T>(s: seq<T>, x: T, k: nat)
    requires k < |s|
    ensures (s + [x])[k] == s[k]
  {
  }

  /** What `parseLine(line)` returns; None is `false`. */
  function LineOf(line: string): Option<ScoreLine>
  {
    var toks := Tokens(line);
    match OperatorOf(toks[0])
    case None => None
    case Some(op) =>
      Some(ScoreLine(op, if op == Pattern then Some(toks[0]) else None, ArgsOf(op, toks)))
  }

  /** `parseLine`: the loop that pushes one argument per token. */
  method ParseLine(line: string) returns (r: Option<ScoreLine>)
    ensures r == LineOf(line)
  {
    var tokens := Tokens(line);
    var operator := GetOperator(tokens[0]);
    if operator.None? {
      return None;
    }
    var op := operator.value;
    var tag := if op == Pattern then Some(tokens[0]) else None;
    var arguments := ReadArgs(op, tokens);
    return Some(ScoreLine(op, tag, arguments));
  }

  /** The loop of `parseLine` that pushes one argument per token after the
      first, and stops at the operator's `args` limit. */
  method ReadArgs(op: OpName, tokens: seq<string>) returns (arguments: seq<Arg>)
    requires |tokens| >= 1
    ensures arguments == ArgsOf(op, tokens)
  {
    arguments := [];
    var i := 1;
    while i < |tokens|
      invariant 1 <= i <= |tokens|
      invariant i - 1 <= ArgCount(op, |tokens|)
      invariant arguments == ArgsUpTo(tokens, i - 1)
      invariant i - 1 < ArgCount(op, |tokens|) ==> i < |tokens|
      invariant i < |tokens| && i - 1 == ArgCount(op, |tokens|) ==> ArgLimit(op).Some?
    {
      if ArgLimit(op).Some? && i - 1 >= ArgLimit(op).value {
        break;
      }
      var arg := ConvertArg(tokens[i]);
      arguments := arguments + [arg];
      i := i + 1;
    }
    assert i - 1 == ArgCount(op, |tokens|);
  }

  /** One argument token's conversion, as `parseLine` writes it. */
  method ConvertArg(tok: string) returns (arg: Arg)
    ensures arg == ArgOf(tok)
  {
    var argOp := GetOperator(tok);
    if argOp.Some? {
      if argOp.value == Speed {
        arg := SpeedArg(SpeedOf(tok));
      } else if argOp.value == Pattern {
        arg := Text(Name(Pattern) + "." + tok);
      } else {
        arg := Text(Name(argOp.value));
      }
    } else if ParseInt(tok).Some? {
      arg := Num(ParseFloat(tok));
    } else {
      arg := Text(tok);
    }
  }

  /** Keep the lines that parsed, in order (`.filter(x => x)`). */
  function Parsed(lines: seq<Option<ScoreLine>>): seq<ScoreLine>
  {
    if lines == [] then []
    else (if lines[0].Some? then [lines[0].value] else []) + Parsed(lines[1..])
  }

  /** Every line's `parseLine`, in order (`.map(parseLine)`). */
  function MapLines(lines: seq<string>): seq<Option<ScoreLine>>
  {
    if lines == [] then [] else [LineOf(lines[0])] + MapLines(lines[1..])
  }

  /** `parseScore(str)`: parse every line and drop those that gave `false`. */
  function ParseScore(text: string): seq<ScoreLine>
  {
    Parsed(MapLines(Split(text, '\n')))
  }

  // ---------------------------------------------------------------------------
  // Properties
  // ---------------------------------------------------------------------------

  /** A line contributes exactly its own parse, or nothing when that is
      `false`, ahead of the lines after it. */
  lemma ParseScoreFirstLine(line: string, rest: string)
    requires forall i :: 0 <= i < |line| ==> line[i] != '\n'
    ensures ParseScore(line + "\n" + rest)
         == (if LineOf(line).Some? then [LineOf(line).value] else []) + ParseScore(rest)
  {
    SplitFirst(line, rest, '\n');
    MapLinesCons(line, Split(rest, '\n'));
    ParsedCons(LineOf(line), MapLines(Split(rest, '\n')));
  }

  lemma MapLinesCons(line: string, lines: seq<string>)
    ensures MapLines([line] + lines) == [LineOf(line)] + MapLines(lines)
  {
    assert ([line] + lines)[1..] == lines;
  }

  lemma ParsedCons(x: Option<ScoreLine>, xs: seq<Option<ScoreLine>>)
    ensures Parsed([x] + xs) == (if x.Some? then [x.value] else []) + Parsed(xs)
  {
    assert ([x] + xs)[1..] == xs;
  }

  /** A score of one line parses to that line, or to nothing. */
  lemma ParseScoreOneLine(line: string)
    requires forall i :: 0 <= i < |line| ==> line[i] != '\n'
    ensures ParseScore(line) == if LineOf(line).Some? then [LineOf(line).value] else []
  {
    SplitNoSeparator(line, '\n');
    MapLinesOne(line);
    ParsedOne(LineOf(line));
  }

  lemma MapLinesOne(line: string)
    ensures MapLines([line]) == [LineOf(line)]
  {
    assert [line][1..] == [];
  }

  lemma ParsedOne(x: Option<ScoreLine>)
    ensures Parsed([x]) == if x.Some? then [x.value] else []
  {
    assert [x][1..] == [];
  }

  /** A line is dropped exactly when its first token names no operator. */
  lemma DroppedIffNoOperator(line: string)
    ensures LineOf(line).None? <==> forall op :: !Matches(op, Tokens(line)[0])
  {
    OperatorOfIsFirst(Tokens(line)[0]);
  }

  /** The empty token names no operator. */
  lemma EmptyTokenNoOperator()
    ensures OperatorOf("") == None
  {
    assert ToLower("") == "";
    assert !StartsWith("", "@");
  }

  /** An empty or all-whitespace line is dropped. */
  lemma BlankLineDropped(line: string)
    requires Trim(line) == ""
    ensures LineOf(line) == None
  {
    assert Word("") == "";
    assert SplitWs("") == [""];
    EmptyTokenNoOperator();
  }

  /** A single lower-case letter is the `pattern` operator. */
  lemma LetterIsPattern(x: string)
    requires |x| == 1 && IsLowerLetter(x[0])
    ensures OperatorOf(x) == Some(Pattern)
  {
    assert ToLower(x) != Name(Notes) && ToLower(x) != Name(Clock);
  }

  /** A token starting with `@` is the `speed` operator. */
  lemma AtIsSpeed(x: string)
    requires StartsWith(x, "@")
    ensures OperatorOf(x) == Some(Speed)
  {
    assert x[0] == '@' && ToLower(x)[0] == '@';
    forall i | 0 <= i < 7 ensures !MatcherOf(x)(Operators[i]) {
      assert Name(Operators[i])[0] != '@';
    }
    FirstMatchFromAt(Operators, MatcherOf(x), 0, 7);
  }

  /** A line whose first token is one lower-case letter is a `pattern` entry
      labelled by that letter. */
  lemma PatternLineLabel(line: string)
    requires |Tokens(line)[0]| == 1 && IsLowerLetter(Tokens(line)[0][0])
    ensures LineOf(line).Some?
    ensures LineOf(line).value.op == Pattern
    ensures LineOf(line).value.tag == Some(Tokens(line)[0])
  {
    LetterIsPattern(Tokens(line)[0]);
  }

  /** A `clock` line keeps at most one argument. */
  lemma ClockKeepsOneArg(line: string)
    requires LineOf(line).Some? && LineOf(line).value.op == Clock
    ensures |LineOf(line).value.args| <= 1
  {
  }

  /** Every `{speed: n}` argument with a number has n >= 1, and n is the
      number after the `@` when that is at least 1. */
  lemma SpeedAtLeastOne(tok: string)
    requires StartsWith(tok, "@") && ParseInt(tok[1..]).Some?
    ensures SliceFrom1(tok) == tok[1..]
    ensures ArgOf(tok) == SpeedArg(Some(if ParseInt(tok[1..]).value < 1 then 1 else ParseInt(tok[1..]).value))
    ensures ArgOf(tok).speed.value >= 1
  {
    AtIsSpeed(tok);
  }

  /** A letter argument becomes `"pattern.<letter>"`. */
  lemma LetterArg(tok: string)
    requires |tok| == 1 && IsLowerLetter(tok[0])
    ensures ArgOf(tok) == Text("pattern." + tok)
  {
    LetterIsPattern(tok);
  }

  /** A token that names no operator becomes `parseFloat(tok)` when
      `parseInt(tok)` is a number, never NaN but Infinity when the literal
      overflows a double, and stays the raw string otherwise. */
  lemma NonOperatorArg(tok: string)
    requires OperatorOf(tok).None?
    ensures ParseInt(tok).Some? ==> ArgOf(tok).Num? && !ArgOf(tok).v.NaN? && ArgOf(tok).v == ParseFloat(tok)
    ensures ParseInt(tok).Some? ==>
      (ArgOf(tok).v.Finite? <==> DecimalMagnitude(SplitDecimal(Unsigned(tok).0)) < OverflowBound)
    ensures ParseInt(tok).None? ==> ArgOf(tok) == Text(tok)
  {
    if ParseInt(tok).Some? {
      ParseIntThenNumber(tok);
    }
  }

  /** The arguments are the converted tokens after the first, in token order,
      and there are at most as many as those tokens. */
  lemma ArgsFollowTokens(line: string)
    requires LineOf(line).Some?
    ensures |LineOf(line).value.args| <= |Tokens(line)| - 1
    ensures forall i :: 0 <= i < |LineOf(line).value.args| ==>
              LineOf(line).value.args[i] == ArgOf(Tokens(line)[i + 1])
  {
    var toks := Tokens(line);
    var op := OperatorOf(toks[0]).value;
    assert LineOf(line).value.args == ArgsOf(op, toks);
    forall i | 0 <= i < |ArgsOf(op, toks)|
      ensures ArgsOf(op, toks)[i] == ArgOf(toks[i + 1])
    {
      ArgsUpToAt(toks, ArgCount(op, |toks|), i);
    }
  }
}
