/**
 * The few JavaScript built-ins the sketches lean on, written out so that the
 * rest of the model can use them with their JavaScript meaning: `trim`,
 * `split(/\s+/)`, `split(c)`, `startsWith`, `indexOf`, `toLowerCase` on ASCII,
 * `parseInt`, `parseFloat`, the truncating `%`, and numbers that may be
 * infinite or NaN.
 */
module JsCore {

  datatype Option<T> = None | Some(value: T)

  datatype Result<T, E> = Ok(value: T) | Err(error: E)

  /** A JavaScript number: a finite value, one of the infinities, or NaN. */
  datatype JsNumber = Finite(r: real) | PosInf | NegInf | NaN

  // ---------------------------------------------------------------------------
  // Characters
  // ---------------------------------------------------------------------------

  /** The ECMAScript WhiteSpace and LineTerminator code points: what `\s`
      matches and what `trim` and `parseInt` skip. */
  predicate IsJsSpace(c: char)
  {
    || c == '\t' || c == '\n' || c == '\U{000B}' || c == '\U{000C}' || c == '\r'
    || c == ' ' || c == '\U{00A0}' || c == '\U{1680}'
    || ('\U{2000}' <= c <= '\U{200A}')
    || c == '\U{2028}' || c == '\U{2029}' || c == '\U{202F}' || c == '\U{205F}'
    || c == '\U{3000}' || c == '\U{FEFF}'
  }

  predicate IsDigit(c: char) { '0' <= c <= '9' }

  predicate IsLowerLetter(c: char) { 'a' <= c <= 'z' }

  predicate IsHexDigit(c: char) { IsDigit(c) || 'a' <= c <= 'f' || 'A' <= c <= 'F' }

  function DigitValue(c: char): (d: nat)
    requires IsDigit(c)
    ensures d < 10
  {
    c as int - '0' as int
  }

  function HexDigitValue(c: char): (d: nat)
    requires IsHexDigit(c)
    ensures d < 16
  {
    if IsDigit(c) then c as int - '0' as int
    else if 'a' <= c <= 'f' then c as int - 'a' as int + 10
    else c as int - 'A' as int + 10
  }

  /** `toLowerCase` on the ASCII letters; every other character is kept. */
  function LowerChar(c: char): char
  {
    if 'A' <= c <= 'Z' then (c as int - 'A' as int + 'a' as int) as char else c
  }

  function ToLower(s: string): (r: string)
    ensures |r| == |s|
    ensures forall i :: 0 <= i < |s| ==> r[i] == LowerChar(s[i])
  {
    if s == [] then [] else [LowerChar(s[0])] + ToLower(s[1..])
  }

  // ---------------------------------------------------------------------------
  // Strings
  // ---------------------------------------------------------------------------

  predicate StartsWith(s: string, p: string)
  {
    |p| <= |s| && s[..|p|] == p
  }

  /** `s.indexOf(sub) >= 0`. */
  predicate Contains(s: string, sub: string)
  {
    exists i :: 0 <= i <= |s| - |sub| && OccursAt(s, sub, i)
  }

  predicate OccursAt(s: string, sub: string, i: int)
    requires 0 <= i <= |s| - |sub|
  {
    s[i..i + |sub|] == sub
  }

  /** `s.trimStart()`: drop the leading whitespace. */
  function TrimStart(s: string): (r: string)
    ensures |r| <= |s| && r == s[|s| - |r|..]
    ensures r == [] || !IsJsSpace(r[0])
    ensures forall i {:trigger IsJsSpace(s[i])} :: 0 <= i < |s| - |r| ==> IsJsSpace(s[i])
  {
    if s != [] && IsJsSpace(s[0]) then TrimStart(s[1..]) else s
  }

  /** `s.trimEnd()`: drop the trailing whitespace. */
  function TrimEnd(s: string): (r: string)
    ensures |r| <= |s| && r == s[..|r|]
    ensures r == [] || !IsJsSpace(r[|r| - 1])
    ensures forall i {:trigger IsJsSpace(s[i])} :: |r| <= i < |s| ==> IsJsSpace(s[i])
  {
    if s != [] && IsJsSpace(s[|s| - 1]) then TrimEnd(s[..|s| - 1]) else s
  }

  /** `s.trim()`: the slice of s left once the whitespace at both ends is
      dropped. */
  function Trim(s: string): (r: string)
    ensures var a := |s| - |TrimStart(s)|;
            a + |r| <= |s| && r == s[a..a + |r|]
            && (forall i {:trigger IsJsSpace(s[i])} :: 0 <= i < a ==> IsJsSpace(s[i]))
            && (forall i {:trigger IsJsSpace(s[i])} :: a + |r| <= i < |s| ==> IsJsSpace(s[i]))
    ensures r == [] || (!IsJsSpace(r[0]) && !IsJsSpace(r[|r| - 1]))
  {
    TrimSlice(s);
    TrimSliceSpace(s);
    TrimEnds(s);
    TrimEnd(TrimStart(s))
  }

  lemma {:induction false} TrimSlice(s: string)
    ensures var a := |s| - |TrimStart(s)|; var r := TrimEnd(TrimStart(s));
            a + |r| <= |s| && r == s[a..a + |r|]
  {
    var t := TrimStart(s);
    var r := TrimEnd(t);
    assert |t| <= |s| && t == s[|s| - |t|..];
    assert |r| <= |t| && r == t[..|r|];
    PrefixOfSuffix(s, t, r);
  }

  /** A prefix of a suffix is a slice. */
  lemma PrefixOfSuffix<T>(s: seq<T>, t: seq<T>, r: seq<T>)
    requires |t| <= |s| && t == s[|s| - |t|..]
    requires |r| <= |t| && r == t[..|r|]
    ensures |s| - |t| + |r| <= |s| && r == s[|s| - |t|..|s| - |t| + |r|]
  {
  }

  lemma TrimSliceSpace(s: string)
    ensures var a := |s| - |TrimStart(s)|; var r := TrimEnd(TrimStart(s));
            forall i {:trigger IsJsSpace(s[i])} :: a + |r| <= i < |s| ==> IsJsSpace(s[i])
  {
    var t := TrimStart(s);
    var a := |s| - |t|;
    var r := TrimEnd(t);
    assert t == s[a..];
    forall i | a + |r| <= i < |s|
      ensures IsJsSpace(s[i])
    {
      assert s[i] == t[i - a];
    }
  }

  lemma TrimEnds(s: string)
    ensures var r := TrimEnd(TrimStart(s));
            r == [] || (!IsJsSpace(r[0]) && !IsJsSpace(r[|r| - 1]))
  {
    var t := TrimStart(s);
    var r := TrimEnd(t);
    if r != [] {
      assert r[0] == t[0];
    }
  }

  /** Whitespace, then a text that does not start with whitespace:
      `trimStart` drops exactly the whitespace. */
  lemma TrimStartSkips(w: string, x: string)
    requires forall i :: 0 <= i < |w| ==> IsJsSpace(w[i])
    requires x == [] || !IsJsSpace(x[0])
    ensures TrimStart(w + x) == x
  {
    var s := w + x;
    var r := TrimStart(s);
    assert forall i :: 0 <= i < |w| ==> s[i] == w[i];
    assert x != [] ==> s[|w|] == x[0];
    assert r == s[|s| - |r|..];
    assert s[|w|..] == x;
  }

  /** A text that does not end with whitespace, then whitespace: `trimEnd`
      drops exactly the whitespace. */
  lemma TrimEndSkips(x: string, w: string)
    requires forall i :: 0 <= i < |w| ==> IsJsSpace(w[i])
    requires x == [] || !IsJsSpace(x[|x| - 1])
    ensures TrimEnd(x + w) == x
  {
    var s := x + w;
    var r := TrimEnd(s);
    assert forall i :: |x| <= i < |s| ==> s[i] == w[i - |x|];
    assert x != [] ==> s[|x| - 1] == x[|x| - 1];
    assert r == s[..|r|];
    assert s[..|x|] == x;
  }

  /** `trim` drops exactly the whitespace around a text that has none at
      its ends. */
  lemma TrimPadded(w1: string, t: string, w2: string)
    requires forall i :: 0 <= i < |w1| ==> IsJsSpace(w1[i])
    requires forall i :: 0 <= i < |w2| ==> IsJsSpace(w2[i])
    requires t == [] || (!IsJsSpace(t[0]) && !IsJsSpace(t[|t| - 1]))
    ensures Trim(w1 + t + w2) == t
  {
    if t == [] {
      var s := w1 + w2;
      assert w1 + t + w2 == s;
      assert forall i :: 0 <= i < |s| ==> IsJsSpace(s[i]) by {
        assert forall i :: |w1| <= i < |s| ==> s[i] == w2[i - |w1|];
      }
      var r := TrimStart(s);
      assert r == s[|s| - |r|..];
    } else {
      assert w1 + t + w2 == w1 + (t + w2);
      TrimStartSkips(w1, t + w2);
      TrimEndSkips(t, w2);
    }
  }

  /** The longest prefix of s that holds no whitespace. */
  function Word(s: string): (w: string)
    ensures |w| <= |s| && w == s[..|w|]
    ensures forall i :: 0 <= i < |w| ==> !IsJsSpace(w[i])
    ensures |w| < |s| ==> IsJsSpace(s[|w|])
  {
    if s == [] || IsJsSpace(s[0]) then [] else [s[0]] + Word(s[1..])
  }

  /** `s.split(/\s+/)`: the pieces between maximal runs of whitespace, with an
      empty first (last) piece when s starts (ends) with whitespace. */
  function SplitWs(s: string): (parts: seq<string>)
    ensures |parts| >= 1
    ensures forall k, i :: 0 <= k < |parts| && 0 <= i < |parts[k]| ==> !IsJsSpace(parts[k][i])
    decreases |s|
  {
    var w := Word(s);
    if |w| == |s| then [w] else [w] + SplitWs(TrimStart(s[|w|..]))
  }

  /** Whitespace-free words with a run of whitespace between each two:
      `words[0] + seps[0] + words[1] + ...`. */
  function JoinWs(words: seq<string>, seps: seq<string>): string
    requires |words| >= 1 && |seps| == |words| - 1
  {
    if |words| == 1 then words[0] else words[0] + seps[0] + JoinWs(words[1..], seps[1..])
  }

  predicate AllSpace(w: string)
  {
    forall i :: 0 <= i < |w| ==> IsJsSpace(w[i])
  }

  predicate NoSpace(w: string)
  {
    forall i :: 0 <= i < |w| ==> !IsJsSpace(w[i])
  }

  /** Non-empty words and non-empty whitespace runs, as `JoinWs` takes them. */
  predicate WordsAndGaps(words: seq<string>, seps: seq<string>)
  {
    |words| >= 1 && |seps| == |words| - 1
    && (forall k :: 0 <= k < |words| ==> words[k] != [] && NoSpace(words[k]))
    && (forall k :: 0 <= k < |seps| ==> seps[k] != [] && AllSpace(seps[k]))
  }

  /** A joined text begins with its first word's first character and ends
      with its last word's last character. */
  lemma {:induction false} JoinWsEnds(words: seq<string>, seps: seq<string>)
    requires WordsAndGaps(words, seps)
    ensures var s := JoinWs(words, seps);
            s != [] && s[0] == words[0][0] && s[|s| - 1] == words[|words| - 1][|words[|words| - 1]| - 1]
  {
    if |words| > 1 {
      assert WordsAndGaps(words[1..], seps[1..]);
      JoinWsEnds(words[1..], seps[1..]);
    }
  }

  /** A word followed by whitespace: `Word` reads exactly the word. */
  lemma WordStops(w: string, rest: string)
    requires NoSpace(w) && (rest == [] || IsJsSpace(rest[0]))
    ensures Word(w + rest) == w
  {
    var s := w + rest;
    var v := Word(s);
    assert forall i :: 0 <= i < |w| ==> s[i] == w[i];
    assert rest != [] ==> s[|w|] == rest[0];
    assert v == s[..|v|];
    assert s[..|w|] == w;
  }

  /** A word, a whitespace run, then a text that does not start with
      whitespace: the word is the first piece and the rest splits alone. */
  lemma SplitWsStep(w: string, sep: string, rest: string)
    requires w != [] && NoSpace(w) && sep != [] && AllSpace(sep)
    requires rest == [] || !IsJsSpace(rest[0])
    ensures SplitWs(w + (sep + rest)) == [w] + SplitWs(rest)
  {
    var s := w + (sep + rest);
    WordStops(w, sep + rest);
    assert s[|w|..] == sep + rest;
    TrimStartSkips(sep, rest);
  }

  /** `split(/\s+/)` of non-empty words separated by whitespace runs gives
      back exactly the words, whatever the runs are. */
  lemma {:induction false} SplitWsWords(words: seq<string>, seps: seq<string>)
    requires WordsAndGaps(words, seps)
    ensures SplitWs(JoinWs(words, seps)) == words
  {
    if |words| == 1 {
      WordStops(words[0], []);
      assert words[0] + [] == words[0];
    } else {
      var rest := JoinWs(words[1..], seps[1..]);
      assert WordsAndGaps(words[1..], seps[1..]);
      JoinWsEnds(words[1..], seps[1..]);
      assert JoinWs(words, seps) == words[0] + (seps[0] + rest);
      SplitWsStep(words[0], seps[0], rest);
      SplitWsWords(words[1..], seps[1..]);
      assert words == [words[0]] + words[1..];
    }
  }

  /** `s.indexOf(c)`: the first position of c in s, or -1. */
  function IndexOf(s: string, c: char): (i: int)
    ensures -1 <= i < |s|
    ensures i >= 0 ==> s[i] == c
    ensures forall j :: 0 <= j < |s| && (i == -1 || j < i) ==> s[j] != c
  {
    if s == [] then -1
    else if s[0] == c then 0
    else
      var r := IndexOf(s[1..], c);
      if r == -1 then -1 else r + 1
  }

  /** A piece free of c, then c: c is first found right after the piece. */
  lemma {:induction false} IndexOfAfter(a: string, b: string, c: char)
    requires forall i :: 0 <= i < |a| ==> a[i] != c
    ensures IndexOf(a + [c] + b, c) == |a|
  {
    if a == [] {
      assert (a + [c] + b)[0] == c;
    } else {
      assert (a + [c] + b)[0] == a[0];
      assert (a + [c] + b)[1..] == a[1..] + [c] + b;
      IndexOfAfter(a[1..], b, c);
    }
  }

  /** `s.split(c)` for a one-character separator. */
  function Split(s: string, c: char): (parts: seq<string>)
    ensures |parts| >= 1
    ensures forall k, i :: 0 <= k < |parts| && 0 <= i < |parts[k]| ==> parts[k][i] != c
  {
    if s == [] then [[]]
    else if s[0] == c then [[]] + Split(s[1..], c)
    else
      var rest := Split(s[1..], c);
      [[s[0]] + rest[0]] + rest[1..]
  }

  /** A piece free of the separator, then the separator, splits off as the
      first piece. */
  lemma {:induction false} SplitFirst(a: string, b: string, c: char)
    requires forall i :: 0 <= i < |a| ==> a[i] != c
    ensures Split(a + [c] + b, c) == [a] + Split(b, c)
  {
    if a == [] {
      assert a + [c] + b == [c] + b;
      assert ([c] + b)[1..] == b;
    } else {
      assert (a + [c] + b)[0] == a[0];
      assert (a + [c] + b)[1..] == a[1..] + [c] + b;
      SplitFirst(a[1..], b, c);
      assert [a[0]] + a[1..] == a;
    }
  }

  /** A text without the separator splits into itself alone. */
  lemma {:induction false} SplitNoSeparator(s: string, c: char)
    requires forall i :: 0 <= i < |s| ==> s[i] != c
    ensures Split(s, c) == [s]
  {
    if s != [] {
      SplitNoSeparator(s[1..], c);
      assert [s[0]] + s[1..] == s;
    }
  }

  // ---------------------------------------------------------------------------
  // Numbers
  // ---------------------------------------------------------------------------

  /** The longest prefix of decimal digits. */
  function DigitRun(s: string): (d: string)
    ensures |d| <= |s| && d == s[..|d|]
    ensures forall i :: 0 <= i < |d| ==> IsDigit(d[i])
    ensures |d| < |s| ==> !IsDigit(s[|d|])
  {
    if s == [] || !IsDigit(s[0]) then [] else [s[0]] + DigitRun(s[1..])
  }

  /** The value of a run of decimal digits, most significant first. */
  function DecimalValue(d: string): nat
    requires forall i :: 0 <= i < |d| ==> IsDigit(d[i])
  {
    if d == [] then 0 else DecimalValue(d[..|d| - 1]) * 10 + DigitValue(d[|d| - 1])
  }

  /** A digit of base 16, or of a smaller base written with decimal digits. */
  predicate IsRadixDigit(c: char, radix: nat)
  {
    if radix == 16 then IsHexDigit(c) else IsDigit(c) && DigitValue(c) < radix
  }

  function RadixDigitValue(c: char, radix: nat): (d: nat)
    requires IsRadixDigit(c, radix)
    ensures d < radix
  {
    if radix == 16 then HexDigitValue(c) else DigitValue(c)
  }

  /** The longest prefix of digits of the base. */
  function RadixRun(s: string, radix: nat): (d: string)
    ensures |d| <= |s|
    ensures forall i :: 0 <= i < |d| ==> IsRadixDigit(d[i], radix)
    ensures |d| < |s| ==> !IsRadixDigit(s[|d|], radix)
  {
    if s == [] || !IsRadixDigit(s[0], radix) then [] else [s[0]] + RadixRun(s[1..], radix)
  }

  /** The value of a run of digits of the base, most significant first. */
  function RadixValue(d: string, radix: nat): nat
    requires forall i :: 0 <= i < |d| ==> IsRadixDigit(d[i], radix)
  {
    if d == [] then 0 else RadixValue(d[..|d| - 1], radix) * radix + RadixDigitValue(d[|d| - 1], radix)
  }

  /** The decimal text of n, as `'' + n` gives it. */
  function NatToString(n: nat): (s: string)
    ensures s != [] && forall i :: 0 <= i < |s| ==> IsDigit(s[i])
    ensures s[0] == '0' ==> n == 0
    ensures n < 10 <==> |s| == 1
  {
    if n < 10 then [('0' as int + n) as char]
    else NatToString(n / 10) + [('0' as int + n % 10) as char]
  }

  /** The decimal text of an integer, as `'' + n` gives it. */
  function IntToString(n: int): string
  {
    if n < 0 then "-" + NatToString(-n) else NatToString(n)
  }

  /** The digits of n spell n. */
  lemma {:induction false} NatToStringValue(n: nat)
    ensures DecimalValue(NatToString(n)) == n
  {
    var s := NatToString(n);
    if n >= 10 {
      NatToStringValue(n / 10);
      assert s[..|s| - 1] == NatToString(n / 10);
    }
  }

  /** The text after leading whitespace and one optional sign, and whether the
      sign was a minus. */
  function Unsigned(s: string): (string, bool)
  {
    var t := TrimStart(s);
    if t != [] && (t[0] == '-' || t[0] == '+') then (t[1..], t[0] == '-') else (t, false)
  }

  predicate HasHexPrefix(u: string)
  {
    |u| >= 2 && u[0] == '0' && (u[1] == 'x' || u[1] == 'X')
  }

  /** `parseInt(s)` with no radix: None is NaN. A `0x`/`0X` prefix selects
      base 16; otherwise the longest run of decimal digits is read. */
  function ParseInt(s: string): Option<int>
  {
    var (u, neg) := Unsigned(s);
    if HasHexPrefix(u) then
      var h := RadixRun(u[2..], 16);
      if h == [] then None else var v: int := RadixValue(h, 16); Some(if neg then -v else v)
    else
      var d := DigitRun(u);
      if d == [] then None else var v: int := DecimalValue(d); Some(if neg then -v else v)
  }

  function Pow10(n: nat): (p: real)
    ensures p >= 1.0
  {
    if n == 0 then 1.0 else 10.0 * Pow10(n - 1)
  }

  function Scale10(e: int): (p: real)
    ensures p > 0.0
  {
    if e >= 0 then Pow10(e) else 1.0 / Pow10(-e)
  }

  /** The smallest magnitude that rounds to Infinity as a double: halfway
      between Number.MAX_VALUE, which is 2^1024 - 2^971, and 2^1024; this is
      2^1024 - 2^970 written out. */
  const OverflowBound: real := 179769313486231580793728971405303415079934132710037826936173778980444968292764750946649017977587207096330286416692887910946555547851940402630657488671505820681908902000708383676273854845817711531764475730270069855571366959622842914819860834936475292719074168444365510704342711559699508093042880177904174497792.0

  /** An exact value as a JavaScript number, as far as overflow goes: from
      OverflowBound on it is the infinity of its sign. */
  function RoundOverflow(v: real): (n: JsNumber)
    ensures !n.NaN?
    ensures n.Finite? <==> -OverflowBound < v < OverflowBound
    ensures n.Finite? ==> n.r == v
  {
    if v >= OverflowBound then PosInf else if v <= -OverflowBound then NegInf else Finite(v)
  }

  /** The exponent part at the start of a: `e` or `E`, an optional sign and
      at least one digit, as its value and its length; None when a does not
      start with one. */
  function ExponentPart(a: string): (e: Option<(int, nat)>)
    ensures e.Some? ==> 2 <= e.value.1 <= |a|
  {
    if a == [] || (a[0] != 'e' && a[0] != 'E') then None
    else
      var signed := |a| >= 2 && (a[1] == '-' || a[1] == '+');
      var b := if signed then a[2..] else a[1..];
      var d := DigitRun(b);
      if d == [] then None
      else
        var v: int := DecimalValue(d);
        Some((if signed && a[1] == '-' then -v else v, (if signed then 2 else 1) + |d|))
  }

  /** The exponent a decimal literal ends with; 0 when it has none. */
  function Exponent(a: string): int
  {
    match ExponentPart(a)
    case None => 0
    case Some(e) => e.0
  }

  /** The number of characters the exponent part takes. */
  function ExponentLength(a: string): nat
  {
    match ExponentPart(a)
    case None => 0
    case Some(e) => e.1
  }

  /** The decimal literal at the start of a text: its integer digits,
      whether a `.` follows them, the fraction digits after it, and the
      text after those. */
  datatype DecimalParts = DecimalParts(whole: string, dot: bool, frac: string, after: string)

  predicate DigitsOnly(d: string)
  {
    forall i :: 0 <= i < |d| ==> IsDigit(d[i])
  }

  function SplitDecimal(u: string): (p: DecimalParts)
    ensures DigitsOnly(p.whole) && DigitsOnly(p.frac)
    ensures p.whole == DigitRun(u)
    ensures !p.dot ==> p.frac == [] && p.after == u[|p.whole|..]
  {
    var d1 := DigitRun(u);
    var rest := u[|d1|..];
    var dot := rest != [] && rest[0] == '.';
    var d2 := if dot then DigitRun(rest[1..]) else [];
    DecimalParts(d1, dot, d2, if dot then rest[1 + |d2|..] else rest)
  }

  /** The exact value of the decimal literal the parts spell. */
  function DecimalMagnitude(p: DecimalParts): real
    requires DigitsOnly(p.whole) && DigitsOnly(p.frac)
  {
    (DecimalValue(p.whole) as real + DecimalValue(p.frac) as real / Pow10(|p.frac|)) * Scale10(Exponent(p.after))
  }

  /** The number the unsigned decimal literal at the start of u spells, as
      `parseFloat` reads it: `Infinity`, or digits with an optional fraction
      and exponent, infinite when they overflow a double; NaN when u starts
      with neither. */
  function DecimalPrefix(u: string): JsNumber
  {
    if StartsWith(u, "Infinity") then PosInf
    else
      var p := SplitDecimal(u);
      if p.whole == [] && p.frac == [] then NaN else RoundOverflow(DecimalMagnitude(p))
  }

  /** The number u spells when all of u is one unsigned decimal literal or
      `Infinity`; NaN otherwise. */
  function WholeDecimal(u: string): JsNumber
  {
    if u == "Infinity" then PosInf
    else
      var p := SplitDecimal(u);
      if (p.whole != [] || p.frac != []) && ExponentLength(p.after) == |p.after|
      then RoundOverflow(DecimalMagnitude(p))
      else NaN
  }

  /** Unary minus on a JavaScript number. */
  function Negate(x: JsNumber): JsNumber
  {
    match x
    case Finite(r) => Finite(-r)
    case PosInf => NegInf
    case NegInf => PosInf
    case NaN => NaN
  }

  /** `parseFloat(s)`: after leading whitespace and an optional sign, the
      longest prefix that is a decimal literal or `Infinity`. */
  function ParseFloat(s: string): JsNumber
  {
    var (u, neg) := Unsigned(s);
    var x := DecimalPrefix(u);
    if neg then Negate(x) else x
  }

  /** The base a `0x`, `0o` or `0b` prefix selects, in either case; 0 for
      any other text. */
  function NonDecimalRadix(t: string): nat
  {
    if |t| < 2 || t[0] != '0' then 0
    else if t[1] == 'x' || t[1] == 'X' then 16
    else if t[1] == 'o' || t[1] == 'O' then 8
    else if t[1] == 'b' || t[1] == 'B' then 2
    else 0
  }

  /** The number a `0x`, `0o` or `0b` integer spells; NaN unless every
      character after the prefix is a digit of its base. */
  function NonDecimalNumber(t: string): JsNumber
    requires NonDecimalRadix(t) != 0
  {
    var radix := NonDecimalRadix(t);
    var d := RadixRun(t[2..], radix);
    if d != [] && |d| == |t| - 2 then RoundOverflow(RadixValue(d, radix) as real) else NaN
  }

  /** `Number(s)` for a string, ECMA-262's StringToNumber: whitespace at
      both ends is ignored and an empty text is 0; otherwise the whole text
      must be a `0x`, `0o` or `0b` integer, or a decimal literal or
      `Infinity` after an optional sign, and anything else is NaN. */
  function StringToNumber(s: string): JsNumber
  {
    var t := Trim(s);
    if t == [] then Finite(0.0)
    else if NonDecimalRadix(t) != 0 then NonDecimalNumber(t)
    else SignedDecimal(t)
  }

  /** A decimal literal or `Infinity` after an optional sign, as the whole text. */
  function SignedDecimal(t: string): JsNumber
  {
    var (u, neg) := if t != [] && (t[0] == '-' || t[0] == '+') then (t[1..], t[0] == '-') else (t, false);
    var x := WholeDecimal(u);
    if neg then Negate(x) else x
  }

  /** Whenever `parseInt` finds a number, `parseFloat` of the same text finds
      one too, never NaN, as both start at the same leading digit; it is
      infinite exactly when the decimal literal there overflows a double. */
  lemma ParseIntThenNumber(s: string)
    requires ParseInt(s).Some?
    ensures !ParseFloat(s).NaN?
    ensures ParseFloat(s).Finite? <==> DecimalMagnitude(SplitDecimal(Unsigned(s).0)) < OverflowBound
  {
    var (u, neg) := Unsigned(s);
    assert IsDigit(u[0]);
    assert !StartsWith(u, "Infinity") by { assert u[0] != 'I'; }
    assert DigitRun(u) != [];
    DecimalMagnitudeNonNegative(SplitDecimal(u));
  }

  lemma DecimalMagnitudeNonNegative(p: DecimalParts)
    requires DigitsOnly(p.whole) && DigitsOnly(p.frac)
    ensures DecimalMagnitude(p) >= 0.0
  {
    var m := DecimalValue(p.whole) as real + DecimalValue(p.frac) as real / Pow10(|p.frac|);
    assert m >= 0.0;
    NonNegativeProduct(m, Scale10(Exponent(p.after)));
  }

  lemma NonNegativeProduct(a: real, b: real)
    requires a >= 0.0 && b >= 0.0
    ensures a * b >= 0.0
  {
  }

  /** `parseInt` and `parseFloat` part on a literal past the double range:
      for `'1e999'` and every other `1e<n>` with n at least 309, `parseInt`
      reads the 1 and `parseFloat` gives Infinity. */
  lemma ParseFloatOverflows(n: nat)
    requires n >= 309
    ensures ParseInt("1e" + NatToString(n)) == Some(1)
    ensures ParseFloat("1e" + NatToString(n)) == PosInf
  {
    var d := NatToString(n);
    OneThenExponentSign(d);
    OneThenExponentDigits(d);
    OneThenExponentSplit(d);
    OneThenExponentMagnitude(d);
    NatToStringValue(n);
    Pow10Exceeds(n);
  }

  lemma OneThenExponentMagnitude(d: string)
    requires d != [] && DigitsOnly(d)
    ensures DecimalMagnitude(DecimalParts("1", false, [], "e" + d)) == Pow10(DecimalValue(d))
  {
    ExponentOfDigits(d);
    var p := DecimalParts("1", false, [], "e" + d);
    var e := DecimalValue(d);
    assert Exponent(p.after) == e;
    assert DecimalValue(p.whole) == 1;
    WholeMagnitude(p);
  }

  /** `1e<d>` has no sign, no hex prefix and is not `Infinity`. */
  lemma OneThenExponentSign(d: string)
    requires d != [] && DigitsOnly(d)
    ensures Unsigned("1e" + d) == ("1e" + d, false)
    ensures !HasHexPrefix("1e" + d)
    ensures !StartsWith("1e" + d, "Infinity")
  {
    var s := "1e" + d;
    assert TrimStart(s) == s by { assert !IsJsSpace(s[0]); }
    assert s[0] != 'I';
  }

  /** The digits `parseInt` reads from `1e<d>`. */
  lemma OneThenExponentDigits(d: string)
    requires d != [] && DigitsOnly(d)
    ensures DigitRun("1e" + d) == "1" && DecimalValue("1") == 1
  {
    var s := "1e" + d;
    assert s[1..] == "e" + d;
    assert DigitRun(s[1..]) == [];
  }

  /** The decimal parts `parseFloat` reads from `1e<d>`. */
  lemma OneThenExponentSplit(d: string)
    requires d != [] && DigitsOnly(d)
    ensures SplitDecimal("1e" + d) == DecimalParts("1", false, [], "e" + d)
  {
    var s := "1e" + d;
    OneThenExponentDigits(d);
    assert s[1..] == "e" + d;
  }

  /** A literal without fraction digits is its integer times the power of
      ten of its exponent. */
  lemma WholeMagnitude(p: DecimalParts)
    requires DigitsOnly(p.whole) && p.frac == []
    ensures DecimalMagnitude(p) == DecimalValue(p.whole) as real * Scale10(Exponent(p.after))
  {
    assert DecimalValue(p.frac) == 0 && Pow10(|p.frac|) == 1.0;
    PlusNoFraction(DecimalValue(p.whole) as real, DecimalValue(p.frac) as real, Pow10(|p.frac|), Scale10(Exponent(p.after)));
  }

  lemma PlusNoFraction(w: real, f: real, q: real, x: real)
    requires f == 0.0 && q == 1.0
    ensures (w + f / q) * x == w * x
  {
  }

  lemma ExponentOfDigits(d: string)
    requires d != [] && DigitsOnly(d)
    ensures ExponentPart("e" + d) == Some((DecimalValue(d) as int, 1 + |d|))
  {
    var a := "e" + d;
    assert a[1..] == d;
    DigitRunAll(d);
  }

  /** 10^n is past the double range once n is at least 309. */
  lemma Pow10Exceeds(n: nat)
    requires n >= 309
    ensures Pow10(n) >= OverflowBound
  {
    Pow10Of309();
    Pow10Grows(309, n);
  }

  lemma Pow10Of32()
    ensures Pow10(1) == 10.0 && Pow10(4) == 10000.0 && Pow10(16) == 10000000000000000.0 && Pow10(32) == 100000000000000000000000000000000.0
  {
    assert Pow10(1) == 10.0;
    Pow10Add(1, 1);
    Pow10Add(2, 2);
    assert Pow10(4) == 10000.0;
    Pow10Add(4, 4);
    assert Pow10(8) == 100000000.0;
    Pow10Add(8, 8);
    assert Pow10(16) == 10000000000000000.0;
    Pow10Add(16, 16);
  }

  lemma Pow10Of64()
    ensures Pow10(64) == 10000000000000000000000000000000000000000000000000000000000000000.0
  {
    Pow10Of32();
    Pow10Add(32, 32);
  }

  lemma Pow10Of256()
    ensures Pow10(256) == 10000000000000000000000000000000000000000000000000000000000000000000000000000000000000000000000000000000000000000000000000000000000000000000000000000000000000000000000000000000000000000000000000000000000000000000000000000000000000000000000000000000000000000.0
  {
    Pow10Of64();
    Pow10Add(64, 64);
    assert Pow10(128) == 100000000000000000000000000000000000000000000000000000000000000000000000000000000000000000000000000000000000000000000000000000000.0;
    Pow10Add(128, 128);
    assert Pow10(256) == 10000000000000000000000000000000000000000000000000000000000000000000000000000000000000000000000000000000000000000000000000000000000000000000000000000000000000000000000000000000000000000000000000000000000000000000000000000000000000000000000000000000000000000.0;
  }

  lemma Pow10Of309()
    ensures Pow10(309) == 1000000000000000000000000000000000000000000000000000000000000000000000000000000000000000000000000000000000000000000000000000000000000000000000000000000000000000000000000000000000000000000000000000000000000000000000000000000000000000000000000000000000000000000000000000000000000000000000000000000000000000000000.0
  {
    Pow10Of32();
    Pow10Of256();
    Pow10Add(256, 32);
    assert Pow10(288) == 1000000000000000000000000000000000000000000000000000000000000000000000000000000000000000000000000000000000000000000000000000000000000000000000000000000000000000000000000000000000000000000000000000000000000000000000000000000000000000000000000000000000000000000000000000000000000000000000000.0;
    Pow10Add(288, 16);
    assert Pow10(304) == 10000000000000000000000000000000000000000000000000000000000000000000000000000000000000000000000000000000000000000000000000000000000000000000000000000000000000000000000000000000000000000000000000000000000000000000000000000000000000000000000000000000000000000000000000000000000000000000000000000000000000000.0;
    Pow10Add(304, 4);
    assert Pow10(308) == 100000000000000000000000000000000000000000000000000000000000000000000000000000000000000000000000000000000000000000000000000000000000000000000000000000000000000000000000000000000000000000000000000000000000000000000000000000000000000000000000000000000000000000000000000000000000000000000000000000000000000000000.0;
    Pow10Add(308, 1);
  }

  lemma {:induction false} Pow10Add(a: nat, b: nat)
    ensures Pow10(a + b) == Pow10(a) * Pow10(b)
  {
    if a > 0 {
      Pow10Add(a - 1, b);
      assert Pow10(a + b) == 10.0 * Pow10(a - 1 + b);
    }
  }

  lemma {:induction false} Pow10Grows(a: nat, b: nat)
    requires a <= b
    ensures Pow10(a) <= Pow10(b)
    decreases b - a
  {
    if a < b {
      Pow10Grows(a + 1, b);
    }
  }

  lemma NegateRoundOverflow(v: real)
    ensures Negate(RoundOverflow(v)) == RoundOverflow(-v)
  {
  }

  /** The text of a natural number is read whole by `Number`. */
  lemma WholeDecimalOfNat(m: nat)
    ensures WholeDecimal(NatToString(m)) == RoundOverflow(m as real)
  {
    var d := NatToString(m);
    NatToStringValue(m);
    DigitRunAll(d);
    assert d != "Infinity" by { assert IsDigit(d[0]); }
    var p := SplitDecimal(d);
    assert p == DecimalParts(d, false, [], []);
    assert DecimalMagnitude(p) == m as real;
  }

  /** `Number` reads back the decimal text of every integer: the round trip
      of `'' + n`, exact below the double range. */
  lemma StringToNumberOfInt(n: int)
    ensures StringToNumber(IntToString(n)) == RoundOverflow(n as real)
  {
    var m: nat := if n < 0 then -n else n;
    IntToStringShape(n);
    WholeDecimalOfNat(m);
    NegateRoundOverflow(m as real);
  }

  /** The text of an integer has no surrounding whitespace and no base
      prefix, and starts with a minus exactly when the integer is negative. */
  lemma IntToStringShape(n: int)
    ensures var t := IntToString(n);
      t != [] && Trim(t) == t && NonDecimalRadix(t) == 0 && t[0] != '+'
      && (n < 0 ==> t[0] == '-' && t[1..] == NatToString(-n))
      && (n >= 0 ==> t == NatToString(n) && t[0] != '-')
  {
    var t := IntToString(n);
    IntToStringEnds(n);
    TrimPadded([], t, []);
    assert [] + t + [] == t;
  }

  /** The text of an integer starts with a minus or a digit and ends with
      a digit. */
  lemma IntToStringEnds(n: int)
    ensures var t := IntToString(n);
      t != [] && (t[0] == '-' || IsDigit(t[0])) && IsDigit(t[|t| - 1])
      && (t[0] == '0' ==> |t| == 1)
  {
    var t := IntToString(n);
    if n < 0 {
      var d := NatToString(-n);
      assert t == "-" + d;
      assert t[|t| - 1] == d[|d| - 1];
    }
  }

  /** Where all of u is a literal, its longest literal prefix is u itself. */
  lemma WholeIsPrefix(u: string)
    requires !WholeDecimal(u).NaN?
    ensures DecimalPrefix(u) == WholeDecimal(u)
  {
    InfinityHasNoDigits(u);
  }

  lemma InfinityHasNoDigits(u: string)
    ensures StartsWith(u, "Infinity") ==> SplitDecimal(u).whole == [] && SplitDecimal(u).frac == []
  {
    if StartsWith(u, "Infinity") {
      assert u[0] == 'I';
    }
  }

  /** Where `Number` reads a decimal text, `parseFloat` reads the same
      value: they differ only on `0x`/`0o`/`0b` integers, blank texts and
      texts with more after the literal. */
  lemma StringToNumberMatchesParseFloat(s: string)
    requires s != [] && Trim(s) == s && NonDecimalRadix(s) == 0
    requires !StringToNumber(s).NaN?
    ensures ParseFloat(s) == StringToNumber(s)
  {
    assert TrimStart(s) == s by { assert !IsJsSpace(s[0]); }
    var u := if s[0] == '-' || s[0] == '+' then s[1..] else s;
    WholeIsPrefix(u);
  }

  /** A text starting with a lower-case letter is no number: the words
      `rest`, `rand`, `sustain` and `pattern.x` of a score read as NaN. */
  lemma LowerWordIsNaN(s: string)
    requires s != [] && IsLowerLetter(s[0])
    ensures StringToNumber(s) == NaN
  {
    TrimKeepsFirst(s);
    var t := Trim(s);
    assert NonDecimalRadix(t) == 0;
    assert SignedDecimal(t) == WholeDecimal(t);
    NoLeadingDigitIsNaN(t);
  }

  /** Trimming keeps a first character that is not whitespace. */
  lemma TrimKeepsFirst(s: string)
    requires s != [] && !IsJsSpace(s[0])
    ensures Trim(s) != [] && Trim(s)[0] == s[0]
  {
    assert TrimStart(s) == s;
  }

  /** A text that starts with neither a digit, a point nor `I` is no decimal literal. */
  lemma NoLeadingDigitIsNaN(u: string)
    requires u != [] && !IsDigit(u[0]) && u[0] != '.' && u[0] != 'I'
    ensures WholeDecimal(u) == NaN
  {
    assert u != "Infinity" by { assert "Infinity"[0] == 'I'; }
    assert DigitRun(u) == [];
    assert u[0..] == u;
  }

  /** `parseInt` of a run of decimal digits is its value. */
  lemma ParseIntOfDigits(d: string)
    requires d != [] && forall i :: 0 <= i < |d| ==> IsDigit(d[i])
    requires !HasHexPrefix(d)
    ensures ParseInt(d) == Some(DecimalValue(d))
  {
    assert !IsJsSpace(d[0]) && d[0] != '-' && d[0] != '+';
    assert Unsigned(d) == (d, false);
    DigitRunAll(d);
  }

  lemma {:induction false} DigitRunAll(d: string)
    requires forall i :: 0 <= i < |d| ==> IsDigit(d[i])
    ensures DigitRun(d) == d
  {
    if d != [] {
      DigitRunAll(d[1..]);
    }
  }

  /** JavaScript's `a % n` on integers: the remainder takes the sign of the
      dividend (truncating division), unlike Dafny's Euclidean `%`. */
  function JsRem(a: int, n: int): (r: int)
    requires n != 0
    ensures a >= 0 ==> r == a % (if n < 0 then -n else n)
    ensures -(if n < 0 then -n else n) < r < (if n < 0 then -n else n)
    ensures a >= 0 ==> r >= 0
    ensures a <= 0 ==> r <= 0
    ensures a < 0 ==> r == -((-a) % (if n < 0 then -n else n))
  {
    var m := if n < 0 then -n else n;
    if a >= 0 then a % m else -((-a) % m)
  }

  /** `Math.max` and `Math.min` on JavaScript numbers: NaN is contagious. */
  function JsMax(a: JsNumber, b: JsNumber): JsNumber
  {
    if a.NaN? || b.NaN? then NaN
    else if a.PosInf? || b.PosInf? then PosInf
    else if a.NegInf? then b
    else if b.NegInf? then a
    else if a.r >= b.r then a else b
  }

  function JsMin(a: JsNumber, b: JsNumber): JsNumber
  {
    if a.NaN? || b.NaN? then NaN
    else if a.NegInf? || b.NegInf? then NegInf
    else if a.PosInf? then b
    else if b.PosInf? then a
    else if a.r <= b.r then a else b
  }

  /** `a / b` on finite operands: division by zero gives an infinity, or NaN for 0 / 0. */
  function JsDiv(a: real, b: real): (q: JsNumber)
    ensures b != 0.0 ==> q == Finite(a / b)
    ensures q.NaN? <==> a == 0.0 && b == 0.0
  {
    if b != 0.0 then Finite(a / b)
    else if a > 0.0 then PosInf
    else if a < 0.0 then NegInf
    else NaN
  }

  /** `a - b`: an infinity minus the same infinity is NaN. */
  function JsSub(a: JsNumber, b: JsNumber): JsNumber
  {
    if a.NaN? || b.NaN? then NaN
    else if a.Finite? && b.Finite? then Finite(a.r - b.r)
    else if a.Finite? then (if b.PosInf? then NegInf else PosInf)
    else if b.Finite? || a.PosInf? != b.PosInf? then a
    else NaN
  }

  /** `a + b`: opposite infinities give NaN. */
  function JsAdd(a: JsNumber, b: JsNumber): (c: JsNumber)
  {
    if a.NaN? || b.NaN? then NaN
    else if a.Finite? && b.Finite? then Finite(a.r + b.r)
    else if a.Finite? then b
    else if b.Finite? || a.PosInf? == b.PosInf? then a
    else NaN
  }

  /** An infinity with the sign of x times the sign of the infinity y. */
  function SignedInf(x: real, y: JsNumber): JsNumber
    requires y.PosInf? || y.NegInf?
  {
    if (x > 0.0) == y.PosInf? then PosInf else NegInf
  }

  /** `a * b`: zero times an infinity is NaN. */
  function JsMul(a: JsNumber, b: JsNumber): (c: JsNumber)
  {
    match (a, b)
    case (Finite(_), Finite(_)) => Finite(a.r * b.r)
    case (NaN, _) => NaN
    case (_, NaN) => NaN
    case (Finite(x), _) => if x == 0.0 then NaN else SignedInf(x, b)
    case (_, Finite(y)) => if y == 0.0 then NaN else SignedInf(y, a)
    case (PosInf, PosInf) => PosInf
    case (NegInf, NegInf) => PosInf
    case (_, _) => NegInf
  }

  /** `a / b`: an infinity over an infinity is NaN, a finite number over an
      infinity is 0. */
  function JsDivide(a: JsNumber, b: JsNumber): (c: JsNumber)
    ensures a.Finite? && b.Finite? ==> c == JsDiv(a.r, b.r)
    ensures a.NaN? || b.NaN? ==> c.NaN?
  {
    match (a, b)
    case (Finite(x), Finite(y)) => JsDiv(x, y)
    case (NaN, _) => NaN
    case (_, NaN) => NaN
    case (Finite(_), _) => Finite(0.0)
    case (_, Finite(y)) => if y < 0.0 then SignedInf(-1.0, a) else a
    case (_, _) => NaN
  }

  // ---------------------------------------------------------------------------
  // Real arithmetic steps the solver needs spelled out
  // ---------------------------------------------------------------------------

  /** Dividing out a non-zero scale. */
  lemma ScaleCancels(k: real, v: real)
    requires k != 0.0
    ensures (k * v) / k == v
  {
  }

  /** A fraction in [0, 1] of a non-negative width stays within it. */
  lemma FractionWithin(t: real, w: real)
    requires 0.0 <= t <= 1.0 && 0.0 <= w
    ensures 0.0 <= t * w <= w && 0.0 <= w * t <= w
  {
    assert (1.0 - t) * w >= 0.0;
  }
}
